/**
 The wire credentials of logalot and the splitter under them
 (services/control-plane/src/domain/split.ts, refresh-token.ts, invite.ts,
 packages/contracts/src/invite.ts, pkg/auth/key.go).
 */
module WireTokens {
  import opened Common

  // ------------------------------------------------------------------
  // indexOf, join and the splitter
  // ------------------------------------------------------------------

  /** `sep` occurs in `s` at position `i`. */
  predicate OccursAt(s: string, sep: string, i: nat) {
    i + |sep| <= |s| && s[i..i + |sep|] == sep
  }

  /** The least position at or after `i` at which `sep` occurs. */
  ghost function FindFrom(s: string, sep: string, i: nat): (r: Option<nat>)
    ensures r.Some? ==> i <= r.value && r.value + |sep| <= |s|
    decreases |s| - i
  {
    if i + |sep| > |s| then None
    else if OccursAt(s, sep, i) then Some(i)
    else if i == |s| then None
    else FindFrom(s, sep, i + 1)
  }

  ghost function FirstIndex(s: string, sep: string): (r: Option<nat>)
    ensures r.Some? ==> r.value + |sep| <= |s|
  {
    FindFrom(s, sep, 0)
  }

  lemma {:induction false} FindFromSpec(s: string, sep: string, i: nat)
    ensures var r := FindFrom(s, sep, i);
            && (r.None? ==> forall j: nat | i <= j :: !OccursAt(s, sep, j))
            && (r.Some? ==> OccursAt(s, sep, r.value) && forall j: nat | i <= j < r.value :: !OccursAt(s, sep, j))
    decreases |s| - i
  {
    if i + |sep| <= |s| && !OccursAt(s, sep, i) && i < |s| {
      FindFromSpec(s, sep, i + 1);
    }
  }

  lemma FirstIndexIs(s: string, sep: string, i: nat)
    requires OccursAt(s, sep, i)
    requires forall j: nat | j < i :: !OccursAt(s, sep, j)
    ensures FirstIndex(s, sep) == Some(i)
  {
    FindFromSpec(s, sep, 0);
  }

  /** `String.indexOf`. */
  method IndexOf(s: string, sep: string) returns (r: Option<nat>)
    ensures r == FirstIndex(s, sep)
  {
    var i: nat := 0;
    while i + |sep| <= |s|
      invariant FindFrom(s, sep, i) == FirstIndex(s, sep)
    {
      if s[i..i + |sep|] == sep {
        return Some(i);
      }
      i := i + 1;
    }
    return None;
  }

  function Join(parts: seq<string>, sep: string): string
    requires |parts| > 0
  {
    if |parts| == 1 then parts[0] else parts[0] + sep + Join(parts[1..], sep)
  }

  /** What `splitN` returns: cut at the first separator, at most n - 1 times. */
  ghost function Split(s: string, sep: string, n: int): (parts: seq<string>)
    ensures n <= 0 ==> parts == []
    ensures n > 0 ==> 1 <= |parts| <= n
    decreases n
  {
    if n <= 0 then []
    else if n == 1 then [s]
    else match FirstIndex(s, sep)
      case None => [s]
      case Some(i) => [s[..i]] + Split(s[i + |sep|..], sep, n - 1)
  }

  lemma SplitStep(s: string, sep: string, n: int)
    requires n > 1
    ensures FirstIndex(s, sep).None? ==> Split(s, sep, n) == [s]
    ensures FirstIndex(s, sep).Some? ==>
              var i := FirstIndex(s, sep).value;
              Split(s, sep, n) == [s[..i]] + Split(s[i + |sep|..], sep, n - 1)
  {
  }

  lemma Shift<T>(a: seq<T>, x: T, b: seq<T>)
    ensures a + ([x] + b) == (a + [x]) + b
  {
  }

  method SplitN(s: string, sep: string, n: int) returns (out: seq<string>)
    ensures out == Split(s, sep, n)
  {
    if n <= 0 {
      return [];
    }
    out := [];
    var rest := s;
    ghost var todo := Split(s, sep, n);
    while |out| < n - 1
      invariant |out| <= n - 1
      invariant todo == Split(rest, sep, n - |out|)
      invariant out + todo == Split(s, sep, n)
    {
      var idx := IndexOf(rest, sep);
      SplitStep(rest, sep, n - |out|);
      if idx.None? {
        break;
      }
      todo := Split(rest[idx.value + |sep|..], sep, n - |out| - 1);
      Shift(out, rest[..idx.value], todo);
      out := out + [rest[..idx.value]];
      rest := rest[idx.value + |sep|..];
    }
    assert todo == [rest];
    out := out + [rest];
  }

  // ------------------------------------------------------------------
  // Go's strings.SplitN, which the API-key parser calls
  // ------------------------------------------------------------------

  /** How often `sep` occurs, left to right without overlap. */
  ghost function CountOf(s: string, sep: string): nat
    requires sep != ""
    decreases |s|
  {
    match FirstIndex(s, sep)
    case None => 0
    case Some(i) => 1 + CountOf(s[i + |sep|..], sep)
  }

  /** An empty separator takes the text apart into at most n pieces of one character, the last keeping the rest. */
  function Explode(s: string, n: int): (parts: seq<string>) {
    var m := if n < 0 || n > |s| then |s| else n;
    seq(m, i requires 0 <= i < m => if i < m - 1 then [s[i]] else s[i..])
  }

  /** No part for n = 0, every cut for n < 0, and never more than one part per character and one. */
  ghost function GoSplit(s: string, sep: string, n: int): seq<string> {
    if n == 0 then []
    else if sep == "" then Explode(s, n)
    else Split(s, sep, Min(if n < 0 then CountOf(s, sep) + 1 else n, |s| + 1))
  }

  /** The cap on the parts never bites. */
  lemma {:induction false} SplitCapped(s: string, sep: string, n: int)
    requires sep != "" && n > 0
    ensures Split(s, sep, Min(n, |s| + 1)) == Split(s, sep, n)
    decreases n
  {
    if n > 1 && FirstIndex(s, sep).Some? {
      var i := FirstIndex(s, sep).value;
      var rest := s[i + |sep|..];
      SplitStep(s, sep, n);
      SplitStep(s, sep, Min(n, |s| + 1));
      SplitCapped(rest, sep, n - 1);
      SplitCapped(rest, sep, Min(n, |s| + 1) - 1);
    }
  }

  lemma {:induction false} CountFits(s: string, sep: string)
    requires sep != ""
    ensures CountOf(s, sep) <= |s|
    decreases |s|
  {
    if FirstIndex(s, sep).Some? {
      CountFits(s[FirstIndex(s, sep).value + |sep|..], sep);
    }
  }

  /** With a negative count every separator is cut: the last part has none left. */
  lemma {:induction false} NegativeCutsAll(s: string, sep: string)
    requires sep != ""
    ensures var parts := Split(s, sep, CountOf(s, sep) + 1);
            |parts| == CountOf(s, sep) + 1 && FirstIndex(parts[|parts| - 1], sep) == None
    decreases |s|
  {
    if FirstIndex(s, sep).Some? {
      var rest := s[FirstIndex(s, sep).value + |sep|..];
      SplitStep(s, sep, CountOf(s, sep) + 1);
      NegativeCutsAll(rest, sep);
    }
  }

  /** Where `splitN` does what Go's SplitN does. */
  predicate GoAgrees(s: string, sep: string, n: int) {
    if n < 0 then sep == "" && s == ""
    else n == 0 || sep != "" || (n == 1 && s != "")
  }

  lemma EmptySeparator(s: string, n: int)
    requires n > 0
    ensures Split(s, "", n) == GoSplit(s, "", n) <==> n == 1 && s != ""
  {
    if n > 1 {
      assert OccursAt(s, "", 0);
      SplitStep(s, "", n);
      assert Split(s, "", n)[0] == "";
      assert s != "" ==> Explode(s, n)[0] != "";
    }
  }

  /** For every text, separator and count: the two splitters agree iff `GoAgrees`. */
  lemma SplitNAgreesWithGoIff(s: string, sep: string, n: int)
    ensures Split(s, sep, n) == GoSplit(s, sep, n) <==> GoAgrees(s, sep, n)
  {
    if n > 0 {
      if sep == "" {
        EmptySeparator(s, n);
      } else {
        SplitCapped(s, sep, n);
      }
    } else if n < 0 && sep != "" {
      CountFits(s, sep);
      NegativeCutsAll(s, sep);
    }
  }

  /** The two kinds of input on which they differ. */
  lemma SplitNIsNotGo()
    ensures Split("a", "_", -1) == [] && GoSplit("a", "_", -1) == ["a"]
    ensures Split("ab", "", 2) == ["", "ab"] && GoSplit("ab", "", 2) == ["a", "b"]
  {
    assert FirstIndex("a", "_") == None by {
      assert "a"[0..1] == "a" && "a"[0] != "_"[0];
    }
    assert OccursAt("ab", "", 0);
    SplitStep("ab", "", 2);
    assert "ab"[0..] == "ab" && "ab"[..0] == "" && "ab"[1..] == "b";
  }

  /** Splitting loses nothing: for every separator, the empty one included, joining gives the text back. */
  lemma {:induction false} JoinOfSplit(s: string, sep: string, n: int)
    requires n > 0
    ensures Join(Split(s, sep, n), sep) == s
    decreases n
  {
    var at := FirstIndex(s, sep);
    FindFromSpec(s, sep, 0);
    if n > 1 && at.Some? {
      var tail := s[at.value + |sep|..];
      JoinOfSplit(tail, sep, n - 1);
      var parts := Split(s, sep, n);
      assert parts[1..] == Split(tail, sep, n - 1);
      assert s == s[..at.value] + s[at.value..at.value + |sep|] + tail;
    }
  }

  /** The one-character separator of every logalot token. */
  ghost predicate Free(s: string, c: char) {
    c !in s
  }

  lemma OccursChar(s: string, c: char, i: nat)
    ensures OccursAt(s, [c], i) <==> i < |s| && s[i] == c
  {
    if i + 1 <= |s| {
      assert s[i..i + 1] == [s[i]];
    }
  }

  lemma FirstIndexChar(a: string, c: char, b: string)
    requires Free(a, c)
    ensures FirstIndex(a + [c] + b, [c]) == Some(|a|)
  {
    var s := a + [c] + b;
    forall j: nat ensures OccursAt(s, [c], j) <==> j < |s| && s[j] == c {
      OccursChar(s, c, j);
    }
    FirstIndexIs(s, [c], |a|);
  }

  lemma FirstIndexFree(s: string, c: char)
    ensures FirstIndex(s, [c]).None? <==> Free(s, c)
    ensures FirstIndex(s, [c]).Some? ==>
              var i := FirstIndex(s, [c]).value; i < |s| && s[i] == c && Free(s[..i], c)
  {
    forall j: nat ensures OccursAt(s, [c], j) <==> j < |s| && s[j] == c {
      OccursChar(s, c, j);
    }
    FindFromSpec(s, [c], 0);
    if c in s {
      var k :| 0 <= k < |s| && s[k] == c;
      assert OccursAt(s, [c], k);
    }
  }

  /** Cutting a joined list gives the list back exactly when its non-final parts hold no separator. */
  lemma {:induction false} SplitOfJoin(parts: seq<string>, c: char)
    requires |parts| > 0
    ensures Split(Join(parts, [c]), [c], |parts|) == parts
        <==> forall i | 0 <= i < |parts| - 1 :: Free(parts[i], c)
    decreases |parts|
  {
    if |parts| > 1 {
      var s := Join(parts, [c]);
      var tail := Join(parts[1..], [c]);
      assert s == parts[0] + [c] + tail;
      FirstIndexFree(s, c);
      SplitOfJoin(parts[1..], c);
      if Free(parts[0], c) {
        FirstIndexChar(parts[0], c, tail);
        assert s[..|parts[0]|] == parts[0] && s[|parts[0]| + 1..] == tail;
        var cut := Split(s, [c], |parts|);
        assert cut == [parts[0]] + Split(tail, [c], |parts| - 1);
        assert cut[1..] == Split(tail, [c], |parts| - 1);
        assert forall i | 0 <= i < |parts| - 2 :: parts[1..][i] == parts[i + 1];
        assert (forall i | 0 <= i < |parts| - 1 :: Free(parts[i], c))
            <==> (forall i | 0 <= i < |parts| - 2 :: Free(parts[1..][i], c)) by {
          if forall i | 0 <= i < |parts| - 2 :: Free(parts[1..][i], c) {
            forall i | 0 <= i < |parts| - 1 ensures Free(parts[i], c) {
              if i > 0 { assert parts[1..][i - 1] == parts[i]; }
            }
          }
        }
      } else {
        assert Split(s, [c], |parts|)[0] == s[..FirstIndex(s, [c]).value];
      }
    }
  }

  /** Every non-final part of a one-character split is separator-free, and the split stops early only at a free rest. */
  lemma {:induction false} SplitParts(s: string, c: char, n: int)
    requires n > 0
    ensures var parts := Split(s, [c], n);
            && (forall i | 0 <= i < |parts| - 1 :: Free(parts[i], c))
            && (|parts| < n ==> Free(parts[|parts| - 1], c))
    decreases n
  {
    FirstIndexFree(s, c);
    var at := FirstIndex(s, [c]);
    if n > 1 && at.Some? {
      SplitParts(s[at.value + 1..], c, n - 1);
      assert Split(s, [c], n) == [s[..at.value]] + Split(s[at.value + 1..], [c], n - 1);
    }
  }

  // ------------------------------------------------------------------
  // The three credentials
  // ------------------------------------------------------------------

  const REFRESH_PREFIX := "lgr"
  const KEY_PREFIX := "lgk"
  const INVITE_PREFIX := "lginv"

  /** `<prefix>_<scope>_<id>_<secret>`: the shape shared by refresh tokens and API keys. */
  datatype Credential = Credential(scope: string, id: string, secret: string) {
    predicate WellFormed() {
      scope != "" && '_' !in scope && id != "" && '_' !in id && secret != ""
    }
  }

  datatype Invite = Invite(publicId: string, secret: string) {
    predicate WellFormed() {
      publicId != "" && '_' !in publicId && secret != ""
    }
  }

  function AssembleCredential(prefix: string, t: Credential): string {
    Join([prefix, t.scope, t.id, t.secret], "_")
  }

  function AssembleInvite(t: Invite): string {
    Join([INVITE_PREFIX, t.publicId, t.secret], "_")
  }

  /** The wire layout, field by field. */
  lemma CredentialShape(prefix: string, t: Credential)
    ensures AssembleCredential(prefix, t) == prefix + "_" + t.scope + "_" + t.id + "_" + t.secret
  {
    var parts := [prefix, t.scope, t.id, t.secret];
    assert parts[1..] == [t.scope, t.id, t.secret] && parts[1..][1..] == [t.id, t.secret];
    assert parts[1..][1..][1..] == [t.secret];
    assert Join(parts[1..][1..], "_") == t.id + "_" + t.secret;
    assert Join(parts[1..], "_") == t.scope + "_" + (t.id + "_" + t.secret);
  }

  /** A well-formed credential's wire form; what the parsers are proved against. */
  ghost predicate IsCredential(prefix: string, raw: string, t: Credential) {
    t.WellFormed() && raw == AssembleCredential(prefix, t)
  }

  ghost predicate IsInvite(raw: string, t: Invite) {
    t.WellFormed() && raw == AssembleInvite(t)
  }

  lemma CredentialParts(prefix: string, raw: string, t: Credential)
    requires '_' !in prefix
    ensures IsCredential(prefix, raw, t) ==> Split(raw, "_", 4) == [prefix, t.scope, t.id, t.secret]
  {
    SplitOfJoin([prefix, t.scope, t.id, t.secret], '_');
  }

  lemma PartsCredential(prefix: string, raw: string, parts: seq<string>)
    requires parts == Split(raw, "_", 4) && |parts| == 4 && parts[0] == prefix
    requires parts[1] != "" && parts[2] != "" && parts[3] != ""
    ensures IsCredential(prefix, raw, Credential(parts[1], parts[2], parts[3]))
  {
    JoinOfSplit(raw, "_", 4);
    SplitParts(raw, '_', 4);
    assert parts == [prefix, parts[1], parts[2], parts[3]];
    assert Free(parts[1], '_') && Free(parts[2], '_');
  }

  lemma InviteParts(raw: string, t: Invite)
    ensures IsInvite(raw, t) ==> Split(raw, "_", 3) == [INVITE_PREFIX, t.publicId, t.secret]
  {
    SplitOfJoin([INVITE_PREFIX, t.publicId, t.secret], '_');
  }

  lemma PartsInvite(raw: string, parts: seq<string>)
    requires parts == Split(raw, "_", 3) && |parts| == 3 && parts[0] == INVITE_PREFIX
    requires parts[1] != "" && parts[2] != ""
    ensures IsInvite(raw, Invite(parts[1], parts[2]))
  {
    JoinOfSplit(raw, "_", 3);
    SplitParts(raw, '_', 3);
    assert parts == [INVITE_PREFIX, parts[1], parts[2]];
    assert Free(parts[1], '_');
  }

  /** `parseRefreshToken` and `parseKey`: four parts, the fixed prefix, no empty field. */
  method ParseCredential(prefix: string, raw: string) returns (r: Option<Credential>)
    requires '_' !in prefix
    ensures r.Some? ==> IsCredential(prefix, raw, r.value)
    ensures forall t: Credential :: IsCredential(prefix, raw, t) ==> r == Some(t)
  {
    var parts := SplitN(raw, "_", 4);
    forall t: Credential | IsCredential(prefix, raw, t)
      ensures parts == [prefix, t.scope, t.id, t.secret]
    {
      CredentialParts(prefix, raw, t);
    }
    if |parts| != 4 || parts[0] != prefix || parts[1] == "" || parts[2] == "" || parts[3] == "" {
      return None;
    }
    PartsCredential(prefix, raw, parts);
    return Some(Credential(parts[1], parts[2], parts[3]));
  }

  method ParseInvite(raw: string) returns (r: Option<Invite>)
    ensures r.Some? ==> IsInvite(raw, r.value)
    ensures forall t: Invite :: IsInvite(raw, t) ==> r == Some(t)
  {
    var parts := SplitN(raw, "_", 3);
    forall t: Invite | IsInvite(raw, t)
      ensures parts == [INVITE_PREFIX, t.publicId, t.secret]
    {
      InviteParts(raw, t);
    }
    if |parts| != 3 || parts[0] != INVITE_PREFIX || parts[1] == "" || parts[2] == "" {
      return None;
    }
    PartsInvite(raw, parts);
    return Some(Invite(parts[1], parts[2]));
  }

  /** The tenant slug pattern: 3 to 40 lower-case letters, digits and hyphens, no hyphen at either end. */
  predicate SlugChar(c: char) {
    'a' <= c <= 'z' || '0' <= c <= '9'
  }

  predicate IsTenantSlug(s: string) {
    && 3 <= |s| <= 40
    && SlugChar(s[0]) && SlugChar(s[|s| - 1])
    && forall i | 0 <= i < |s| :: SlugChar(s[i]) || s[i] == '-'
  }

  lemma InviteShape(t: Invite)
    ensures AssembleInvite(t) == (INVITE_PREFIX + "_") + (t.publicId + "_" + t.secret)
  {
    var parts := [INVITE_PREFIX, t.publicId, t.secret];
    assert parts[1..] == [t.publicId, t.secret];
    assert parts[1..][1..] == [t.secret];
    assert Join(parts[1..], "_") == t.publicId + "_" + t.secret;
  }

  /** An invite seen as the web side reads it: the fixed prefix, then the slug up to the first separator. */
  ghost predicate ReadsAs(rest: string, t: Invite) {
    && t.WellFormed()
    && FirstIndex(rest, "_") == Some(|t.publicId|)
    && rest[..|t.publicId|] == t.publicId
    && rest[|t.publicId| + 1..] == t.secret
  }

  lemma ReadsAsJoin(rest: string, t: Invite)
    ensures ReadsAs(rest, t) <==> t.WellFormed() && rest == t.publicId + "_" + t.secret
  {
    if t.WellFormed() && rest == t.publicId + "_" + t.secret {
      FirstIndexChar(t.publicId, '_', t.secret);
    }
    if ReadsAs(rest, t) {
      FirstIndexFree(rest, '_');
      assert rest == rest[..|t.publicId|] + [rest[|t.publicId|]] + rest[|t.publicId| + 1..];
    }
  }

  lemma InviteSlice(token: string, t: Invite)
    ensures IsInvite(token, t) <==>
              INVITE_PREFIX + "_" <= token && ReadsAs(token[|INVITE_PREFIX| + 1..], t)
  {
    InviteShape(t);
    var prefix := INVITE_PREFIX + "_";
    var body := t.publicId + "_" + t.secret;
    if IsInvite(token, t) {
      assert prefix <= token && token[|prefix|..] == body;
      ReadsAsJoin(body, t);
    }
    if prefix <= token && ReadsAs(token[|prefix|..], t) {
      ReadsAsJoin(token[|prefix|..], t);
      assert token == prefix + token[|prefix|..];
    }
  }

  /** The web side's own index-and-slice parser; it never looks at the secret. */
  method ParseInviteTenantSlug(token: string) returns (r: Option<string>)
    ensures r.Some? ==> IsTenantSlug(r.value) && exists secret :: IsInvite(token, Invite(r.value, secret))
    ensures forall t | IsInvite(token, t) && IsTenantSlug(t.publicId) :: r == Some(t.publicId)
  {
    var prefix := INVITE_PREFIX + "_";
    forall t | IsInvite(token, t) ensures prefix <= token && ReadsAs(token[|prefix|..], t) {
      InviteSlice(token, t);
    }
    if !(prefix <= token) {
      return None;
    }
    var rest := token[|prefix|..];
    var sepIdx := IndexOf(rest, "_");
    FirstIndexFree(rest, '_');
    if sepIdx.None? || sepIdx.value == 0 || sepIdx.value == |rest| - 1 {
      return None;
    }
    var candidate := rest[..sepIdx.value];
    if IsTenantSlug(candidate) {
      ghost var secret := rest[sepIdx.value + 1..];
      InviteSlice(token, Invite(candidate, secret));
      return Some(candidate);
    }
    return None;
  }

  lemma PrefixLetter(prefix: string, raw: string, t: Credential)
    requires |prefix| == 3
    ensures IsCredential(prefix, raw, t) ==> |raw| > 2 && raw[2] == prefix[2]
  {
  }

  /** The three kinds of credential never overlap, and a raw text has at most one reading of its kind. */
  lemma CredentialsAreUnambiguous(raw: string, r: Credential, k: Credential, i: Invite)
    ensures !(IsCredential(REFRESH_PREFIX, raw, r) && IsCredential(KEY_PREFIX, raw, k))
    ensures !(IsCredential(REFRESH_PREFIX, raw, r) && IsInvite(raw, i))
    ensures !(IsCredential(KEY_PREFIX, raw, k) && IsInvite(raw, i))
    ensures IsCredential(KEY_PREFIX, raw, r) && IsCredential(KEY_PREFIX, raw, k) ==> r == k
    ensures IsCredential(REFRESH_PREFIX, raw, r) && IsCredential(REFRESH_PREFIX, raw, k) ==> r == k
  {
    PrefixLetter(REFRESH_PREFIX, raw, r);
    PrefixLetter(KEY_PREFIX, raw, k);
    InviteShape(i);
    OneReading(KEY_PREFIX, raw, r, k);
    OneReading(REFRESH_PREFIX, raw, r, k);
  }

  lemma OneReading(prefix: string, raw: string, r: Credential, k: Credential)
    requires '_' !in prefix
    ensures IsCredential(prefix, raw, r) && IsCredential(prefix, raw, k) ==> r == k
  {
    if IsCredential(prefix, raw, r) && IsCredential(prefix, raw, k) {
      CredentialParts(prefix, raw, r);
      CredentialParts(prefix, raw, k);
    }
  }

  /** The API-key parser's split in Go is the one the TypeScript parsers make, so `ParseCredential` is both. */
  lemma KeySplitIsShared(raw: string)
    ensures GoSplit(raw, "_", 4) == Split(raw, "_", 4)
  {
    SplitNAgreesWithGoIff(raw, "_", 4);
  }
}
