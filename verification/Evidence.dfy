/** Install references (src/model/evidence.rs) and the installed-state check built on them. */
module Evidence {
  import opened Wrappers

  /** The Unicode White_Space characters, which `str::trim` removes. */
  predicate IsSpace(c: char) {
    var n := c as int;
    || 0x9 <= n <= 0xD || n == 0x20 || n == 0x85 || n == 0xA0 || n == 0x1680 || 0x2000 <= n <= 0x200A
    || n == 0x2028 || n == 0x2029 || n == 0x202F || n == 0x205F || n == 0x3000
  }

  predicate IsAsciiAlphanumeric(c: char) {
    '0' <= c <= '9' || 'a' <= c <= 'z' || 'A' <= c <= 'Z'
  }

  predicate AllSpace(s: string) {
    forall c :: c in s ==> IsSpace(c)
  }

  predicate AllSlash(s: string) {
    forall c :: c in s ==> c == '/'
  }

  function TrimStart(s: string): string {
    if s != [] && IsSpace(s[0]) then TrimStart(s[1..]) else s
  }

  function TrimEnd(s: string): string {
    if s != [] && IsSpace(s[|s| - 1]) then TrimEnd(s[..|s| - 1]) else s
  }

  function TrimEndSlashes(s: string): string {
    if s != [] && s[|s| - 1] == '/' then TrimEndSlashes(s[..|s| - 1]) else s
  }

  const PATH_PREFIX := "/ipfs/"
  const URI_PREFIX := "ipfs://"

  /** A bare content identifier is recognized by its version-0 or version-1 shape. */
  predicate LooksBare(cid: string) {
    (|cid| == 46 && "Qm" <= cid) || (|cid| > 50 && "baf" <= cid)
  }

  predicate WellFormedCid(cid: string) {
    cid != [] && forall c :: c in cid ==> IsAsciiAlphanumeric(c)
  }

  function StripPrefix(s: string): (string, bool) {
    if PATH_PREFIX <= s then (s[|PATH_PREFIX|..], true)
    else if URI_PREFIX <= s then (s[|URI_PREFIX|..], true)
    else (s, false)
  }

  function IpfsCid(reference: string): Option<string> {
    var (stripped, prefixed) := StripPrefix(TrimEnd(TrimStart(reference)));
    var cid := TrimEndSlashes(stripped);
    if WellFormedCid(cid) && (prefixed || LooksBare(cid)) then Some(cid) else None
  }

  function CidOf(reference: Option<string>): Option<string> {
    if reference.Some? then IpfsCid(reference.value) else None
  }

  /** Registry installs have no origin, so two registry references count as the same one. */
  predicate SameInstallOrigin(expected: Option<string>, installed: Option<string>) {
    CidOf(expected) == CidOf(installed)
  }

  /** The version a preview resolves to, when it reports one and not just the requested reference. */
  function SemanticVersion(version: Option<string>): Option<string> {
    if version.Some? && version.value != [] && '0' <= version.value[0] <= '9' then version else None
  }

  // ---------------------------------------------------------------- the reference grammar

  /** The code points of the property White_Space of the Unicode Character Database. */
  const WHITE_SPACE: set<int> := {
    0x9, 0xA, 0xB, 0xC, 0xD, 0x20, 0x85, 0xA0, 0x1680, 0x2000, 0x2001, 0x2002, 0x2003, 0x2004, 0x2005, 0x2006, 0x2007, 0x2008,
    0x2009, 0x200A, 0x2028, 0x2029, 0x202F, 0x205F, 0x3000}

  predicate Blank(s: string) {
    forall c :: c in s ==> c as int in WHITE_SPACE
  }

  lemma BlankIsSpace(s: string)
    ensures Blank(s) <==> AllSpace(s)
  {
    assert forall c :: c in s ==> (c as int in WHITE_SPACE <==> IsSpace(c));
  }

  /** reference = space* ("/ipfs/" | "ipfs://" | "") cid "/"* space* */
  ghost predicate Denotes(reference: string, before: string, prefix: string, cid: string, slashes: string, after: string) {
    && reference == before + (prefix + (cid + slashes)) + after
    && Blank(before) && Blank(after) && (forall c :: c in slashes ==> c == '/')
    && (prefix == "/ipfs/" || prefix == "ipfs://" || prefix == "")
    && cid != "" && (forall c :: c in cid ==> '0' <= c <= '9' || 'a' <= c <= 'z' || 'A' <= c <= 'Z')
    && (prefix == "" ==> (|cid| == 46 && cid[..2] == "Qm") || (|cid| > 50 && cid[..3] == "baf"))
  }

  /** The reference names a content identifier. */
  ghost predicate Refers(reference: Option<string>, cid: string) {
    reference.Some? && exists before, prefix, slashes, after :: Denotes(reference.value, before, prefix, cid, slashes, after)
  }

  lemma RefersToItsCid(reference: Option<string>, cid: string)
    ensures Refers(reference, cid) <==> CidOf(reference) == Some(cid)
  {
    hide Denotes, IpfsCid;
    if reference.Some? {
      if Refers(reference, cid) {
        var before, prefix, slashes, after :| Denotes(reference.value, before, prefix, cid, slashes, after);
        DenotedCidIsRead(reference.value, before, prefix, cid, slashes, after);
      } else if IpfsCid(reference.value) == Some(cid) {
        ReadCidIsDenoted(reference.value);
      }
    }
  }

  ghost predicate RefersToCid(reference: Option<string>) {
    exists cid :: Refers(reference, cid)
  }

  /** A version as releases have it: it begins with a digit. */
  predicate IsRelease(version: Option<string>) {
    version.Some? && version.value != "" && '0' <= version.value[0] <= '9'
  }

  /** Both name the same content identifier, or neither names one. */
  ghost predicate ReferAlike(one: Option<string>, other: Option<string>) {
    forall cid :: Refers(one, cid) <==> Refers(other, cid)
  }

  lemma CidIsReferred(reference: Option<string>)
    ensures RefersToCid(reference) <==> CidOf(reference).Some?
  {
    hide Refers, CidOf;
    if CidOf(reference).Some? {
      RefersToItsCid(reference, CidOf(reference).value);
    }
    if RefersToCid(reference) {
      var cid :| Refers(reference, cid);
      RefersToItsCid(reference, cid);
    }
  }

  lemma SameOriginIffReferAlike(one: Option<string>, other: Option<string>)
    ensures SameInstallOrigin(one, other) <==> ReferAlike(one, other)
  {
    hide Refers, CidOf;
    forall cid ensures Refers(one, cid) <==> CidOf(one) == Some(cid) {
      RefersToItsCid(one, cid);
    }
    forall cid ensures Refers(other, cid) <==> CidOf(other) == Some(cid) {
      RefersToItsCid(other, cid);
    }
    if CidOf(one) != CidOf(other) {
      var cid := if CidOf(one).Some? then CidOf(one).value else CidOf(other).value;
      assert !(Refers(one, cid) <==> Refers(other, cid));
    }
  }

  lemma {:induction false} TrimStartSplits(s: string)
    ensures exists a :: AllSpace(a) && s == a + TrimStart(s)
    ensures TrimStart(s) != [] ==> !IsSpace(TrimStart(s)[0])
  {
    if s != [] && IsSpace(s[0]) {
      TrimStartSplits(s[1..]);
      var a :| AllSpace(a) && s[1..] == a + TrimStart(s[1..]);
      assert s == [s[0]] + s[1..] == ([s[0]] + a) + TrimStart(s);
      assert AllSpace([s[0]] + a);
    } else {
      assert s == [] + TrimStart(s) && AllSpace([]);
    }
  }

  lemma {:induction false} TrimEndSplits(s: string)
    ensures exists b :: AllSpace(b) && s == TrimEnd(s) + b
    ensures TrimEnd(s) <= s
  {
    if s != [] && IsSpace(s[|s| - 1]) {
      var n := |s| - 1;
      TrimEndSplits(s[..n]);
      var b :| AllSpace(b) && s[..n] == TrimEnd(s[..n]) + b;
      assert s == s[..n] + [s[n]] == TrimEnd(s) + (b + [s[n]]);
      assert AllSpace(b + [s[n]]);
    } else {
      assert s == TrimEnd(s) + [] && AllSpace([]);
    }
  }

  lemma {:induction false} TrimSlashesSplits(s: string)
    ensures exists t :: AllSlash(t) && s == TrimEndSlashes(s) + t
  {
    if s != [] && s[|s| - 1] == '/' {
      var n := |s| - 1;
      TrimSlashesSplits(s[..n]);
      var t :| AllSlash(t) && s[..n] == TrimEndSlashes(s[..n]) + t;
      assert s == s[..n] + [s[n]] == TrimEndSlashes(s) + (t + [s[n]]);
      assert AllSlash(t + [s[n]]);
    } else {
      assert s == TrimEndSlashes(s) + [] && AllSlash([]);
    }
  }

  lemma {:induction false} TrimStartDrops(a: string, s: string)
    requires AllSpace(a) && (s == [] || !IsSpace(s[0]))
    ensures TrimStart(a + s) == s
  {
    if a == [] {
      assert a + s == s;
    } else {
      assert (a + s)[1..] == a[1..] + s;
      TrimStartDrops(a[1..], s);
    }
  }

  lemma {:induction false} TrimEndDrops(s: string, b: string)
    requires AllSpace(b) && (s == [] || !IsSpace(s[|s| - 1]))
    ensures TrimEnd(s + b) == s
  {
    if b == [] {
      assert s + b == s;
    } else {
      var n := |b| - 1;
      assert (s + b)[..|s + b| - 1] == s + b[..n];
      TrimEndDrops(s, b[..n]);
    }
  }

  lemma {:induction false} TrimSlashesDrops(s: string, t: string)
    requires AllSlash(t) && (s == [] || s[|s| - 1] != '/')
    ensures TrimEndSlashes(s + t) == s
  {
    if t == [] {
      assert s + t == s;
    } else {
      var n := |t| - 1;
      assert t[n] in t && forall c :: c in t[..n] ==> c in t;
      assert (s + t)[..|s + t| - 1] == s + t[..n];
      TrimSlashesDrops(s, t[..n]);
    }
  }

  /** Every spelling the grammar allows is read back to its content identifier. */
  lemma DenotedCidIsRead(reference: string, before: string, prefix: string, cid: string, slashes: string, after: string)
    requires Denotes(reference, before, prefix, cid, slashes, after)
    ensures IpfsCid(reference) == Some(cid)
  {
    BlankIsSpace(before);
    BlankIsSpace(after);
    var core := prefix + (cid + slashes);
    assert cid[0] in cid && cid[|cid| - 1] in cid;
    if slashes != [] {
      assert slashes[|slashes| - 1] in slashes;
    }
    assert core[0] == if prefix != "" then prefix[0] else cid[0];
    assert core[|core| - 1] == if slashes != [] then '/' else cid[|cid| - 1];
    assert reference == before + (core + after);
    assert (core + after)[0] == core[0];
    TrimStartDrops(before, core + after);
    TrimEndDrops(core, after);
    if prefix == "" {
      assert core == cid + slashes;
      assert forall c :: c in core ==> c in cid || c in slashes;
      assert core[0] != '/';
      assert |core| > 4 ==> core[4] in core;
      assert !(URI_PREFIX <= core);
    }
    assert StripPrefix(core).0 == cid + slashes;
    TrimSlashesDrops(cid, slashes);
  }

  /** Whatever is read was spelled that way: no other text is taken for an IPFS reference. */
  lemma ReadCidIsDenoted(reference: string)
    requires IpfsCid(reference).Some?
    ensures exists before, prefix, slashes, after ::
              Denotes(reference, before, prefix, IpfsCid(reference).value, slashes, after)
  {
    hide IsSpace, AllSpace, Blank, TrimStart, TrimEnd, TrimEndSlashes;
    var head := TrimStart(reference);
    TrimStartSplits(reference);
    var before :| AllSpace(before) && reference == before + head;
    TrimEndSplits(head);
    var core := TrimEnd(head);
    var after :| AllSpace(after) && head == core + after;
    var (stripped, prefixed) := StripPrefix(core);
    var prefix := if PATH_PREFIX <= core then PATH_PREFIX else if URI_PREFIX <= core then URI_PREFIX else "";
    assert core == prefix + stripped;
    TrimSlashesSplits(stripped);
    var slashes :| AllSlash(slashes) && stripped == TrimEndSlashes(stripped) + slashes;
    BlankIsSpace(before);
    BlankIsSpace(after);
    assert Denotes(reference, before, prefix, IpfsCid(reference).value, slashes, after);
  }

  // ---------------------------------------------------------------- installed state

  /** What the installed package says about a requested install reference. */
  datatype InstalledCheck = Matches | Differs | CompareResolvedVersion(version: string)

  function CheckInstalled(origin: Option<string>, version: Option<string>, requested: Option<string>): InstalledCheck {
    var installed := CidOf(origin);
    if CidOf(requested).Some? then
      if installed == CidOf(requested) then Matches else Differs
    else if installed.None? && version.Some? then CompareResolvedVersion(version.value)
    else Differs
  }

  /** `installed_as_requested`: the check, completed by a preview when a registry version must be resolved. */
  function InstalledAsRequested(origin: Option<string>, version: Option<string>, requested: Option<string>,
                                preview: Option<Option<string>>): bool {
    match CheckInstalled(origin, version, requested)
    case Matches => true
    case Differs => false
    case CompareResolvedVersion(installed) => preview.Some? && SemanticVersion(preview.value) == Some(installed)
  }

  /**
   * A mutation confirmed by its installed state left exactly the requested build: the same origin,
   * and for a registry request also the version the request resolves to.
   */
  lemma ConfirmedMutationIsTheRequestedBuild(origin: Option<string>, version: Option<string>,
                                             requested: Option<string>, preview: Option<Option<string>>)
    ensures InstalledAsRequested(origin, version, requested, preview) <==>
              && ReferAlike(requested, origin)
              && (!RefersToCid(requested) ==> IsRelease(version) && preview == Some(version))
  {
    hide ReferAlike, Refers, IpfsCid;
    SameOriginIffReferAlike(requested, origin);
    CidIsReferred(requested);
    var check := CheckInstalled(origin, version, requested);
    if check.CompareResolvedVersion? {
      assert Some(check.version) == version;
    }
  }
}
