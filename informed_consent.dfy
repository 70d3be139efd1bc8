/** Informed-consent versions: parsing "X.Y.Z" strings, the newer-than
    ordering, the institution's current version, a consent's status and the
    normalisation applied when a version is stored. */
module InformedConsent {
  import opened Wrappers
  import opened Text

  datatype Version = Version(major: int, minor: int, patch: int)

  /** An informed consent of one institution. */
  datatype Consent = Consent(version: string, validFrom: int)

  /** `[int(p) for p in parts]`; None where one part is not an integer. */
  function ParseAll(parts: seq<string>): (r: Option<seq<int>>)
    ensures r.Some? ==> |r.value| == |parts|
    ensures r.Some? <==> forall i :: 0 <= i < |parts| ==> ParseInt(parts[i]).Some?
    ensures r.Some? ==> forall i :: 0 <= i < |parts| ==> r.value[i] == ParseInt(parts[i]).value
  {
    if parts == [] then Some([])
    else
      var head := ParseInt(parts[0]);
      var tail := ParseAll(parts[1..]);
      if head.None? || tail.None? then None else Some([head.value] + tail.value)
  }

  /** The integer parts of a dotted version string; splitting always gives
      at least one part. */
  function Numbers(s: string): (r: Option<seq<int>>)
    ensures r.Some? ==> |r.value| >= 1
  {
    ParseAll(Split(s, '.'))
  }

  /** The version a stored string holds: exactly three integer parts, the
      only form the serializer stores; None otherwise. */
  function ParseVersion(s: string): Option<Version>
  {
    var n := Numbers(s);
    if n.Some? && |n.value| == 3 then Some(Version(n.value[0], n.value[1], n.value[2])) else None
  }

  /** `'.'.join(str(p) for p in version)`. */
  function Format(v: Version): string
  {
    Join([IntToString(v.major), IntToString(v.minor), IntToString(v.patch)], ".")
  }

  /** The three numbers of a formatted version parse back to it. */
  lemma FormatParses(v: Version)
    ensures Numbers(Format(v)) == Some([v.major, v.minor, v.patch])
    ensures ParseVersion(Format(v)) == Some(v)
  {
    var parts := [IntToString(v.major), IntToString(v.minor), IntToString(v.patch)];
    SplitJoin(parts, '.');
    assert Split(Format(v), '.') == parts;
    IntToStringParses(v.major);
    IntToStringParses(v.minor);
    IntToStringParses(v.patch);
    var n := ParseAll(parts);
    assert n.Some?;
    assert n.value == [v.major, v.minor, v.patch];
  }

  /** `cand` is newer than `cur` when its (major, minor, patch) is
      lexicographically greater. */
  predicate Newer(cur: Version, cand: Version)
  {
    cand.major > cur.major ||
    (cand.major == cur.major && (cand.minor > cur.minor || (cand.minor == cur.minor && cand.patch > cur.patch)))
  }

  /** Newer is a strict total order: irreflexive, asymmetric, transitive and
      total on distinct versions. */
  lemma NewerIsStrictTotalOrder(a: Version, b: Version, c: Version)
    ensures !Newer(a, a)
    ensures Newer(a, b) ==> !Newer(b, a)
    ensures Newer(a, b) && Newer(b, c) ==> Newer(a, c)
    ensures a != b ==> Newer(a, b) || Newer(b, a)
  {
  }

  /** The comparison of is_newer_versions on the integer parts, evaluated
      as Python's `or` and `and` do: a later part is read only when the
      earlier ones are equal, and reading a missing part raises (None). */
  function NewerParts(cur: seq<int>, cand: seq<int>): (r: Option<bool>)
    requires |cur| >= 1 && |cand| >= 1
    ensures cand[0] != cur[0] ==> r == Some(cand[0] > cur[0])
    ensures |cur| >= 3 && |cand| >= 3 ==>
              r == Some(Newer(Version(cur[0], cur[1], cur[2]), Version(cand[0], cand[1], cand[2])))
    ensures r.None? <==> cand[0] == cur[0] &&
                         (|cur| < 2 || |cand| < 2 || (cand[1] == cur[1] && (|cur| < 3 || |cand| < 3)))
  {
    if cand[0] > cur[0] then Some(true)
    else if cand[0] != cur[0] then Some(false)
    else if |cand| < 2 || |cur| < 2 then None
    else if cand[1] > cur[1] then Some(true)
    else if cand[1] != cur[1] then Some(false)
    else if |cand| < 3 || |cur| < 3 then None
    else Some(cand[2] > cur[2])
  }

  /** is_newer_versions: None where the source raises, on a part that is
      not an integer or on a part it reads that is missing. */
  function IsNewerVersions(current: string, candidate: string): (r: Option<bool>)
    ensures Numbers(current).None? || Numbers(candidate).None? ==> r.None?
    ensures Numbers(current).Some? && Numbers(candidate).Some? ==>
              r == NewerParts(Numbers(current).value, Numbers(candidate).value)
    ensures ParseVersion(current).Some? && ParseVersion(candidate).Some? ==>
              r == Some(Newer(ParseVersion(current).value, ParseVersion(candidate).value))
  {
    var c := Numbers(current);
    var n := Numbers(candidate);
    if c.None? || n.None? then None else NewerParts(c.value, n.value)
  }

  /** Short versions compare as far as the first differing part. */
  lemma ShortVersionsCompare()
    ensures IsNewerVersions("1", "2") == Some(true)
    ensures IsNewerVersions("1", "1") == None
  {
    assert "1"[1..] == "" && "2"[1..] == "";
    assert Split("", '.') == [""];
    assert [""][1..] == [];
    assert ['1'] + "" == "1" && ['2'] + "" == "2";
    assert Split("1", '.') == ["1"];
    assert Split("2", '.') == ["2"];
    assert ParseInt("1") == Some(1) && ParseInt("2") == Some(2);
  }

  /** No stored version is newer than itself, so re-accepting it is a downgrade. */
  lemma {:induction false} SameVersionIsNotNewer(v: Version)
    ensures IsNewerVersions(Format(v), Format(v)) == Some(false)
  {
    FormatParses(v);
  }

  /** valid_version: equal strings are valid without parsing; otherwise
      major and minor must agree, the minor being read only when the majors
      agree. None where the source raises, on a part that is not an integer
      or on a missing minor it reads. */
  function ValidVersion(version: string, current: string): (r: Option<bool>)
    ensures version == current ==> r == Some(true)
    ensures version != current && (Numbers(version).None? || Numbers(current).None?) ==> r.None?
    ensures version != current && Numbers(version).Some? && Numbers(current).Some? ==>
              var v := Numbers(version).value;
              var c := Numbers(current).value;
              (v[0] != c[0] ==> r == Some(false)) &&
              (v[0] == c[0] && (|v| < 2 || |c| < 2) ==> r.None?) &&
              (|v| >= 2 && |c| >= 2 ==> r == Some(v[0] == c[0] && v[1] == c[1]))
  {
    if version == current then Some(true)
    else
      var v := Numbers(version);
      var c := Numbers(current);
      if v.None? || c.None? then None
      else if v.value[0] != c.value[0] then Some(false)
      else if |v.value| < 2 || |c.value| < 2 then None
      else Some(v.value[1] == c.value[1])
  }

  /** Between two stored versions the patch number is ignored. */
  lemma {:induction false} ValidVersionIgnoresPatch(v: Version, w: Version)
    ensures ValidVersion(Format(v), Format(w)) == Some(v.major == w.major && v.minor == w.minor)
  {
    FormatParses(v);
    FormatParses(w);
    if Format(v) == Format(w) {
      assert v == w;
    }
  }

  /** The consents already in force at `now`. */
  predicate InForce(c: Consent, now: int)
  {
    c.validFrom <= now
  }

  predicate Readable(consents: seq<Consent>)
  {
    forall i :: 0 <= i < |consents| ==> ParseVersion(consents[i].version).Some?
  }

  /** The versions of the consents in force, in order. */
  function InForceVersions(consents: seq<Consent>, now: int): seq<Version>
    requires Readable(consents)
  {
    if consents == [] then []
    else
      var c := consents[|consents| - 1];
      InForceVersions(consents[..|consents| - 1], now) +
        if InForce(c, now) then [ParseVersion(c.version).value] else []
  }

  /** The newest of `vs`, keeping the earlier one on ties, scanning in order. */
  function Newest(vs: seq<Version>): Option<Version>
  {
    if vs == [] then None
    else
      var prev := Newest(vs[..|vs| - 1]);
      var v := vs[|vs| - 1];
      if prev.None? || Newer(prev.value, v) then Some(v) else prev
  }

  /** The newest version among the consents in force. */
  function Latest(consents: seq<Consent>, now: int): Option<Version>
    requires Readable(consents)
  {
    Newest(InForceVersions(consents, now))
  }

  /** The newest of a sequence exists iff it is non-empty, is one of its
      elements, and no element is newer. */
  lemma {:induction false} NewestIsMaximum(vs: seq<Version>)
    ensures Newest(vs).None? <==> vs == []
    ensures Newest(vs).Some? ==> Newest(vs).value in vs
    ensures Newest(vs).Some? ==> forall w :: w in vs ==> !Newer(Newest(vs).value, w)
  {
    if vs != [] {
      var init := vs[..|vs| - 1];
      var v := vs[|vs| - 1];
      NewestIsMaximum(init);
      assert vs == init + [v];
      var prev := Newest(init);
      forall w | w in init
        ensures !Newer(Newest(vs).value, w)
      {
        NewerIsStrictTotalOrder(prev.value, v, w);
      }
      NewerIsStrictTotalOrder(v, v, v);
    }
  }

  /** The in-force versions are exactly the versions of the consents in force. */
  lemma {:induction false} InForceVersionsAreInForce(consents: seq<Consent>, now: int)
    requires Readable(consents)
    ensures forall i :: 0 <= i < |consents| && InForce(consents[i], now) ==>
                        ParseVersion(consents[i].version).value in InForceVersions(consents, now)
    ensures forall w :: w in InForceVersions(consents, now) ==>
                        exists i :: 0 <= i < |consents| && InForce(consents[i], now) && ParseVersion(consents[i].version) == Some(w)
  {
    if consents != [] {
      var init := consents[..|consents| - 1];
      InForceVersionsAreInForce(init, now);
      assert forall i :: 0 <= i < |init| ==> init[i] == consents[i];
    }
  }

  /** No consent in force means no latest version; otherwise the latest is
      the version of a consent in force and no consent in force is newer. */
  lemma LatestIsMaximum(consents: seq<Consent>, now: int)
    requires Readable(consents)
    ensures Latest(consents, now).None? <==> forall i :: 0 <= i < |consents| ==> !InForce(consents[i], now)
    ensures Latest(consents, now).Some? ==>
              exists i :: 0 <= i < |consents| && InForce(consents[i], now) &&
                          ParseVersion(consents[i].version) == Latest(consents, now)
    ensures Latest(consents, now).Some? ==>
              forall i :: 0 <= i < |consents| && InForce(consents[i], now) ==>
                          !Newer(Latest(consents, now).value, ParseVersion(consents[i].version).value)
  {
    InForceVersionsAreInForce(consents, now);
    NewestIsMaximum(InForceVersions(consents, now));
  }

  /** get_current_ic_version: the newest version in force, re-joined with
      dots, or None when no consent is in force yet. */
  method CurrentVersion(consents: seq<Consent>, now: int) returns (r: Option<string>)
    requires Readable(consents)
    ensures r.None? <==> Latest(consents, now).None?
    ensures r.Some? ==> r.value == Format(Latest(consents, now).value)
  {
    var current: Option<Version> := None;
    var i := 0;
    while i < |consents|
      invariant 0 <= i <= |consents|
      invariant current == Latest(consents[..i], now)
    {
      assert consents[..i + 1][..i] == consents[..i];
      var c := consents[i];
      var vs := InForceVersions(consents[..i], now);
      if InForce(c, now) {
        var v := ParseVersion(c.version).value;
        assert InForceVersions(consents[..i + 1], now) == vs + [v];
        assert (vs + [v])[..|vs|] == vs;
        if current.None? {
          current := Some(v);
        } else if Newer(current.value, v) {
          current := Some(v);
        }
      } else {
        assert InForceVersions(consents[..i + 1], now) == vs;
      }
      i := i + 1;
    }
    assert consents[..i] == consents;
    r := if current.Some? then Some(Format(current.value)) else None;
  }

  /** InformedConsent.status for a consent of the institution at `now`. */
  function Status(c: Consent, consents: seq<Consent>, now: int): (r: string)
    requires Readable(consents) && c in consents
    ensures r in {"NOT_VALID_YET", "VALID", "VALID_NEED_UPDATE", "NOT_VALID"}
    ensures !InForce(c, now) ==> r == "NOT_VALID_YET"
  {
    if !InForce(c, now) then "NOT_VALID_YET"
    else
      LatestIsMaximum(consents, now);
      var current := Format(Latest(consents, now).value);
      if current == c.version then "VALID"
      else if ValidVersion(c.version, current) == Some(true) then "VALID_NEED_UPDATE"
      else "NOT_VALID"
  }

  /** A consent in force is VALID when its text is the current version,
      VALID_NEED_UPDATE when it differs but has the same major and minor,
      and NOT_VALID otherwise. */
  lemma StatusInForce(c: Consent, consents: seq<Consent>, now: int)
    requires Readable(consents) && c in consents && InForce(c, now)
    ensures Latest(consents, now).Some?
    ensures var cur := Latest(consents, now).value;
            var v := Numbers(c.version).value;
            Status(c, consents, now) ==
              if Format(cur) == c.version then "VALID"
              else if v[0] == cur.major && v[1] == cur.minor then "VALID_NEED_UPDATE"
              else "NOT_VALID"
  {
    LatestIsMaximum(consents, now);
    FormatParses(Latest(consents, now).value);
  }

  /** The serializer's validate_version: exactly three integer parts,
      returned re-joined in canonical form. */
  function ValidateVersion(value: string): (r: Result<string>)
    ensures r.Ok? <==> Numbers(value).Some? && |Numbers(value).value| == 3
  {
    var n := Numbers(value);
    if n.None? || |n.value| != 3 then Err("Invalid version. Expected X.Y.Z with X, Y and Z integer values")
    else Ok(Format(Version(n.value[0], n.value[1], n.value[2])))
  }

  /** An accepted version reads as the same three numbers as its input, and
      validating it again returns it unchanged. */
  lemma ValidateVersionNormalises(value: string)
    requires ValidateVersion(value).Ok?
    ensures Numbers(ValidateVersion(value).value) == Numbers(value)
    ensures ValidateVersion(ValidateVersion(value).value) == ValidateVersion(value)
  {
    var n := Numbers(value).value;
    var v := Version(n[0], n[1], n[2]);
    assert ValidateVersion(value) == Ok(Format(v));
    FormatValidates(v);
    assert n == [v.major, v.minor, v.patch];
  }

  /** A formatted version is accepted as it is. */
  lemma FormatValidates(v: Version)
    ensures Numbers(Format(v)) == Some([v.major, v.minor, v.patch])
    ensures ValidateVersion(Format(v)) == Ok(Format(v))
  {
    FormatParses(v);
    var n := [v.major, v.minor, v.patch];
    assert Version(n[0], n[1], n[2]) == v;
  }
}
