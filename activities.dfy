/** The instruments configured on an activity: which are primary, which
    are enabled through their chain of alternatives, and which a learner
    gets once the instruments disabled by their special educational needs
    (SEND) are swapped for their alternatives. */
module Activities {
  import opened Wrappers

  /** One instrument configuration of an activity. `alternativeTo` is the
      id of the configuration it is an alternative to. */
  datatype ActivityInstrument = ActivityInstrument(
    id: int, instrument: int, alternativeTo: Option<int>, required: bool, active: bool, options: Option<string>)

  type Configuration = map<int, ActivityInstrument>

  /** Every alternative points at a configuration that exists (the foreign
      key guarantees it). */
  predicate WellFormed(conf: Configuration)
  {
    forall id :: id in conf ==>
      (conf[id].id == id && (conf[id].alternativeTo.Some? ==> conf[id].alternativeTo.value in conf))
  }

  /** is_primary: not an alternative to anything. */
  predicate IsPrimary(a: ActivityInstrument)
  {
    a.alternativeTo.None?
  }

  /** is_enabled, following the alternatives with at most `fuel` steps; None
      when the chain is longer (the recursion would not end on a cycle). An
      active configuration is enabled; an inactive primary is not; an
      inactive alternative is enabled iff what it replaces is. */
  function IsEnabled(conf: Configuration, id: int, fuel: nat): (r: Option<bool>)
    requires WellFormed(conf) && id in conf
    ensures fuel > 0 && conf[id].active ==> r == Some(true)
    ensures fuel > 0 && !conf[id].active && IsPrimary(conf[id]) ==> r == Some(false)
    ensures r.Some? && !conf[id].active && !IsPrimary(conf[id]) ==>
              fuel > 1 && r == IsEnabled(conf, conf[id].alternativeTo.value, fuel - 1)
    decreases fuel
  {
    if fuel == 0 then None
    else if conf[id].active then Some(true)
    else if IsPrimary(conf[id]) then Some(false)
    else IsEnabled(conf, conf[id].alternativeTo.value, fuel - 1)
  }

  /** Ranks that grow along every alternative link: the chains are acyclic. */
  predicate Ranked(conf: Configuration, rank: map<int, nat>)
  {
    conf.Keys <= rank.Keys &&
    forall id :: id in conf && conf[id].alternativeTo.Some? && conf[id].alternativeTo.value in conf ==>
      conf[id].alternativeTo.value in rank && rank[conf[id].alternativeTo.value] < rank[id]
  }

  /** On acyclic chains is_enabled always ends: rank + 1 steps suffice. */
  lemma {:induction false} EnabledTerminates(conf: Configuration, rank: map<int, nat>, id: int)
    requires WellFormed(conf) && Ranked(conf, rank) && id in conf
    ensures IsEnabled(conf, id, rank[id] + 1).Some?
    decreases rank[id]
  {
    if !conf[id].active && !IsPrimary(conf[id]) {
      var parent := conf[id].alternativeTo.value;
      EnabledTerminates(conf, rank, parent);
      EnabledMoreFuel(conf, parent, rank[parent] + 1, rank[id]);
    }
  }

  /** More steps never change an answer already reached. */
  lemma {:induction false} EnabledMoreFuel(conf: Configuration, id: int, fuel: nat, more: nat)
    requires WellFormed(conf) && id in conf && fuel <= more
    requires IsEnabled(conf, id, fuel).Some?
    ensures IsEnabled(conf, id, more) == IsEnabled(conf, id, fuel)
    decreases fuel
  {
    if !conf[id].active && !IsPrimary(conf[id]) {
      EnabledMoreFuel(conf, conf[id].alternativeTo.value, fuel - 1, more - 1);
    }
  }

  /** get_options: no options stay none; present options are decoded. */
  function GetOptions<T>(a: ActivityInstrument, decode: string -> T): (r: Option<T>)
    ensures r.None? <==> a.options.None?
    ensures r.Some? ==> r.value == decode(a.options.value)
  {
    if a.options.Some? then Some(decode(a.options.value)) else None
  }

  /** The instruments SEND disables for a learner: only when the learner
      is a SEND learner and the SEND options name some. */
  function DisabledInstruments(isSend: bool, disabled: Option<seq<int>>): (r: seq<int>)
    ensures !isSend || disabled.None? ==> r == []
    ensures isSend && disabled.Some? ==> r == disabled.value
  {
    if isSend && disabled.Some? then disabled.value else []
  }

  /** The active primaries whose instrument is (`excluded`) or is not
      disabled, in configuration order. */
  function Primaries(configuration: seq<ActivityInstrument>, disabled: seq<int>, excluded: bool): (r: seq<ActivityInstrument>)
    ensures forall k :: 0 <= k < |r| ==> r[k] in configuration && r[k].active && IsPrimary(r[k]) &&
                                         (r[k].instrument in disabled <==> excluded)
    ensures forall a :: a in configuration && a.active && IsPrimary(a) && (a.instrument in disabled <==> excluded) ==> a in r
  {
    if configuration == [] then []
    else
      var a := configuration[0];
      (if a.active && IsPrimary(a) && (a.instrument in disabled <==> excluded) then [a] else []) +
      Primaries(configuration[1..], disabled, excluded)
  }

  /** The active alternatives to one configuration, in configuration order. */
  function AlternativesTo(configuration: seq<ActivityInstrument>, id: int): (r: seq<ActivityInstrument>)
    ensures forall k :: 0 <= k < |r| ==> r[k] in configuration && r[k].active && r[k].alternativeTo == Some(id)
    ensures forall a :: a in configuration && a.active && a.alternativeTo == Some(id) ==> a in r
  {
    if configuration == [] then []
    else
      var a := configuration[0];
      (if a.active && a.alternativeTo == Some(id) then [a] else []) + AlternativesTo(configuration[1..], id)
  }

  /** The active alternatives to each of the given primaries, primary by
      primary. */
  function AlternativesOf(configuration: seq<ActivityInstrument>, primaries: seq<ActivityInstrument>): seq<ActivityInstrument>
  {
    if primaries == [] then []
    else AlternativesOf(configuration, primaries[..|primaries| - 1]) +
         AlternativesTo(configuration, primaries[|primaries| - 1].id)
  }

  /** A configuration is gathered iff it is an active alternative to one of
      the primaries. */
  lemma {:induction false} AlternativesOfMembers(configuration: seq<ActivityInstrument>, primaries: seq<ActivityInstrument>, a: ActivityInstrument)
    ensures a in AlternativesOf(configuration, primaries) <==>
              a in configuration && a.active && exists p :: p in primaries && a.alternativeTo == Some(p.id)
    decreases |primaries|
  {
    if primaries != [] {
      var init := primaries[..|primaries| - 1];
      var last := primaries[|primaries| - 1];
      assert primaries == init + [last];
      AlternativesOfMembers(configuration, init, a);
      if a in AlternativesOf(configuration, primaries) && a !in AlternativesOf(configuration, init) {
        assert a in AlternativesTo(configuration, last.id);
        assert last in primaries;
      }
      if a in configuration && a.active && exists p :: p in primaries && a.alternativeTo == Some(p.id) {
        var p :| p in primaries && a.alternativeTo == Some(p.id);
        if p != last {
          assert p in init;
        }
      }
    }
  }

  /** Activity.get_learner_instruments: the active primaries whose
      instrument is not disabled, then the active alternatives of the
      active primaries whose instrument is. Alternatives are not checked
      against the disabled list. */
  method GetLearnerInstruments(configuration: seq<ActivityInstrument>, isSend: bool, disabled: Option<seq<int>>)
    returns (r: seq<ActivityInstrument>)
    ensures var off := DisabledInstruments(isSend, disabled);
            var kept := Primaries(configuration, off, false);
            r == kept + AlternativesOf(configuration, Primaries(configuration, off, true)) &&
            (forall k :: 0 <= k < |kept| ==> r[k] == kept[k] && r[k].instrument !in off) &&
            (forall k :: |kept| <= k < |r| ==>
               r[k] in configuration && r[k].active && !IsPrimary(r[k]) &&
               exists p :: p in configuration && p.active && IsPrimary(p) && p.instrument in off &&
                           r[k].alternativeTo == Some(p.id))
  {
    var off := DisabledInstruments(isSend, disabled);
    var primary := Primaries(configuration, off, false);
    var excluded := Primaries(configuration, off, true);
    var alternatives := CollectAlternatives(configuration, excluded);
    r := primary + alternatives;
    forall k | |primary| <= k < |r|
      ensures r[k] in configuration && r[k].active && !IsPrimary(r[k]) &&
              exists p :: p in configuration && p.active && IsPrimary(p) && p.instrument in off &&
                          r[k].alternativeTo == Some(p.id)
    {
      assert r[k] == alternatives[k - |primary|];
      AlternativesOfMembers(configuration, excluded, r[k]);
    }
  }

  /** The loop of get_learner_instruments over the excluded primaries: the
      active alternatives of each one, in order. */
  method CollectAlternatives(configuration: seq<ActivityInstrument>, excluded: seq<ActivityInstrument>)
    returns (alternatives: seq<ActivityInstrument>)
    ensures alternatives == AlternativesOf(configuration, excluded)
  {
    alternatives := [];
    var i := 0;
    while i < |excluded|
      invariant 0 <= i <= |excluded|
      invariant alternatives == AlternativesOf(configuration, excluded[..i])
    {
      assert excluded[..i + 1][..i] == excluded[..i];
      alternatives := alternatives + AlternativesTo(configuration, excluded[i].id);
      i := i + 1;
    }
    assert excluded[..i] == excluded;
  }

  /** Without SEND-disabled instruments a learner gets exactly the active
      primaries. */
  lemma {:induction false} NoSendMeansPrimaries(configuration: seq<ActivityInstrument>, isSend: bool)
    ensures var off := DisabledInstruments(isSend, None);
            Primaries(configuration, off, true) == [] &&
            AlternativesOf(configuration, Primaries(configuration, off, true)) == []
  {
    if configuration != [] {
      NoSendMeansPrimaries(configuration[1..], isSend);
    }
  }

  /** The decoded options an attachment filter looks at: whether an
      'offline' key is present with a true value. */
  predicate Offline(options: Option<map<string, bool>>)
  {
    options.Some? && "offline" in options.value && options.value["offline"]
  }

  /** Whether an instrument accepts a VLE attachment: plagiarism and forensic
      analysis (4, 5) always do; face and voice recognition (1, 3) only when
      configured offline. */
  predicate AcceptsAttachment(a: ActivityInstrument, decode: string -> map<string, bool>)
  {
    a.instrument in {4, 5} || (a.instrument in {1, 3} && Offline(GetOptions(a, decode)))
  }

  /** The instruments accepting attachments, in the given order. */
  function AttachmentFilter(instruments: seq<ActivityInstrument>, decode: string -> map<string, bool>): seq<ActivityInstrument>
  {
    if instruments == [] then []
    else AttachmentFilter(instruments[..|instruments| - 1], decode) +
         (if AcceptsAttachment(instruments[|instruments| - 1], decode) then [instruments[|instruments| - 1]] else [])
  }

  /** What the filter keeps: exactly the accepting instruments, so never an
      instrument other than 1, 3, 4 and 5, and always 4 and 5. */
  lemma {:induction false} AttachmentFilterMembers(instruments: seq<ActivityInstrument>, decode: string -> map<string, bool>)
    ensures forall a :: a in AttachmentFilter(instruments, decode) <==> a in instruments && AcceptsAttachment(a, decode)
    ensures forall a :: a in AttachmentFilter(instruments, decode) ==> a.instrument in {1, 3, 4, 5}
    ensures |AttachmentFilter(instruments, decode)| <= |instruments|
  {
    if instruments != [] {
      var init := instruments[..|instruments| - 1];
      AttachmentFilterMembers(init, decode);
      assert instruments == init + [instruments[|instruments| - 1]];
    }
  }

  /** VLECourseActivityViewSet.attachment, GET: the learner's instruments
      that accept an attachment, in the order get_learner_instruments gives
      them. */
  method AttachmentInstruments(instruments: seq<ActivityInstrument>, decode: string -> map<string, bool>)
    returns (r: seq<ActivityInstrument>)
    ensures r == AttachmentFilter(instruments, decode)
  {
    r := [];
    var i := 0;
    while i < |instruments|
      invariant 0 <= i <= |instruments|
      invariant r == AttachmentFilter(instruments[..i], decode)
    {
      assert instruments[..i + 1][..i] == instruments[..i];
      var inst := instruments[i];
      if inst.instrument in [4, 5] {
        r := r + [inst];
      } else if inst.instrument in [1, 3] {
        var options := GetOptions(inst, decode);
        if options.Some? && "offline" in options.value && options.value["offline"] {
          r := r + [inst];
        }
      }
      i := i + 1;
    }
    assert instruments[..i] == instruments;
  }
}
