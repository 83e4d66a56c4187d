/**
 Mapping the sources of a rulebook to event streams: how sources without a usable
 name are named, when a list of mappings is accepted, and what it replaces.
 */
module SourceMappings {
  import opened Common

  ghost predicate Distinct<T>(s: seq<T>) { forall i, j | 0 <= i < j < |s| :: s[i] != s[j] }

  // ------------------------------------------------- naming the sources

  function Digit(n: nat): char
    requires n < 10
  {
    "0123456789"[n]
  }

  function Decimal(n: nat): (s: string)
    ensures s != []
  {
    if n < 10 then [Digit(n)] else Decimal(n / 10) + [Digit(n % 10)]
  }

  /** Reading a decimal number, by the codes of its digits. */
  ghost function Value(s: string): int {
    if s == [] then 0 else 10 * Value(s[..|s| - 1]) + (s[|s| - 1] as int - '0' as int)
  }

  lemma {:induction false} DecimalReads(n: nat)
    ensures Value(Decimal(n)) == n
  {
    var s := Decimal(n);
    if n >= 10 {
      DecimalReads(n / 10);
      assert s[..|s| - 1] == Decimal(n / 10);
    } else {
      assert s[..0] == [];
    }
  }

  lemma DecimalInjective(m: nat, n: nat)
    requires Decimal(m) == Decimal(n)
    ensures m == n
  {
    DecimalReads(m);
    DecimalReads(n);
  }

  /** The default name of the source at a position, counted from one over all rulesets. */
  function DefaultName(i: nat): string { "__SOURCE_" + Decimal(i + 1) }

  lemma DefaultInjective(i: nat, j: nat)
    requires DefaultName(i) == DefaultName(j)
    ensures i == j
  {
    assert DefaultName(i)[|"__SOURCE_"|..] == Decimal(i + 1);
    assert DefaultName(j)[|"__SOURCE_"|..] == Decimal(j + 1);
    DecimalInjective(i + 1, j + 1);
  }

  /** A source keeps the name given to it unless an earlier one has it. */
  function NameOf(given: Option<string>, i: nat, before: seq<string>): string {
    if given.None? || given.value in before then DefaultName(i) else given.value
  }

  function SourceNames(given: seq<Option<string>>): (names: seq<string>)
    ensures |names| == |given|
  {
    if given == [] then []
    else
      var n := |given| - 1;
      var before := SourceNames(given[..n]);
      before + [NameOf(given[n], n, before)]
  }

  /** The loop over the sources of all rulesets; `currentNames` is what is taken. */
  method BuildSourceList(given: seq<Option<string>>) returns (names: seq<string>)
    ensures names == SourceNames(given)
  {
    names := [];
    var currentNames: set<string> := {};
    for i := 0 to |given|
      invariant names == SourceNames(given[..i])
      invariant forall s :: s in currentNames <==> s in names
    {
      assert given[..i + 1][..i] == given[..i];
      var defaultName := DefaultName(i);
      var name := if given[i].Some? then given[i].value else defaultName;
      if name in currentNames {
        name := defaultName;
      }
      currentNames := currentNames + {name};
      names := names + [name];
    }
    assert given[..|given|] == given;
  }

  lemma {:induction false} NameAt(given: seq<Option<string>>, i: nat)
    requires i < |given|
    ensures SourceNames(given)[i] == NameOf(given[i], i, SourceNames(given)[..i])
    ensures SourceNames(given)[..i] == SourceNames(given[..i])
  {
    var n := |given| - 1;
    if i < n {
      NameAt(given[..n], i);
      assert given[..n][..i] == given[..i];
      assert SourceNames(given)[..i] == SourceNames(given[..n])[..i];
    }
  }

  /**
   Whether a source ends up with the default name of its position, said of the given
   names alone: it has no name, or just that one, or one that an earlier source has, by
   its own name or as its default.
   */
  predicate TakesDefault(given: seq<Option<string>>, j: nat)
    requires j < |given|
    decreases j
  {
    || given[j] == None
    || given[j] == Some(DefaultName(j))
    || (exists k | 0 <= k < j :: given[k] == given[j])
    || (exists k | 0 <= k < j :: given[j] == Some(DefaultName(k)) && TakesDefault(given, k))
  }

  lemma {:induction false} TakesDefaultIs(given: seq<Option<string>>, j: nat)
    requires j < |given|
    ensures TakesDefault(given, j) <==> SourceNames(given)[j] == DefaultName(j)
    ensures !TakesDefault(given, j) ==> given[j] == Some(SourceNames(given)[j])
    decreases j
  {
    hide SourceNames, DefaultName;
    var names := SourceNames(given);
    NameAt(given, j);
    assert forall k | 0 <= k < j :: names[..j][k] == names[k];
    forall k | 0 <= k < j
      ensures TakesDefault(given, k) <==> names[k] == DefaultName(k)
      ensures !TakesDefault(given, k) ==> given[k] == Some(names[k])
    {
      TakesDefaultIs(given, k);
    }
    if given[j].Some? {
      TakenIs(given, j);
    }
  }

  /** A name is taken when an earlier source has it, by its own name or as its default. */
  lemma {:induction false} TakenIs(given: seq<Option<string>>, j: nat)
    requires j < |given| && given[j].Some?
    requires forall k | 0 <= k < j ::
      && (TakesDefault(given, k) <==> SourceNames(given)[k] == DefaultName(k))
      && (!TakesDefault(given, k) ==> given[k] == Some(SourceNames(given)[k]))
    ensures given[j].value in SourceNames(given)[..j] <==>
      ((exists k | 0 <= k < j :: given[k] == given[j])
       || (exists k | 0 <= k < j :: given[j] == Some(DefaultName(k)) && TakesDefault(given, k)))
  {
    hide SourceNames, DefaultName, TakesDefault;
    var names := SourceNames(given);
    assert forall k | 0 <= k < j :: names[..j][k] == names[k];
    if given[j].value in names[..j] {
      var k :| 0 <= k < j && names[..j][k] == given[j].value;
      assert given[k] == given[j] || TakesDefault(given, k);
    }
    if k: nat :| k < j && given[k] == given[j] {
      NameAt(given, k);
      assert names[k] in names[..j] by { assert names[..j][k] == names[k]; }
      assert forall i | 0 <= i < k :: names[..k][i] == names[..j][i];
    }
    if k: nat :| k < j && given[j] == Some(DefaultName(k)) && TakesDefault(given, k) {
      assert names[..j][k] == given[j].value;
    }
  }

  /** A source given just the default name that a later one takes. */
  predicate Clash(given: seq<Option<string>>, i: nat, j: nat)
    requires i < j < |given|
  {
    given[i] == Some(DefaultName(j)) && TakesDefault(given, j)
  }

  /** The names are distinct exactly when no such pair is given. */
  lemma NamesDistinctIff(given: seq<Option<string>>)
    ensures Distinct(SourceNames(given)) <==> forall i: nat, j: nat | i < j < |given| :: !Clash(given, i, j)
  {
    hide SourceNames, DefaultName, Clash;
    var names := SourceNames(given);
    if i: nat, j: nat :| i < j < |given| && Clash(given, i, j) {
      var p := ClashIsShared(given, i, j);
    }
    if i: nat, j: nat :| i < j < |given| && names[i] == names[j] {
      SharedIsClash(given, i, j);
    }
  }

  /** A clash makes a name occur twice. */
  lemma {:induction false} ClashIsShared(given: seq<Option<string>>, i: nat, j: nat) returns (p: nat)
    requires i < j < |given| && Clash(given, i, j)
    ensures p < j && SourceNames(given)[p] == SourceNames(given)[j]
  {
    hide SourceNames, DefaultName, TakesDefault;
    var names := SourceNames(given);
    TakesDefaultIs(given, j);
    NameAt(given, i);
    p := i;
    if names[i] != names[j] {
      p :| 0 <= p < i && names[..i][p] == names[j];
    }
  }

  lemma {:induction false} SharedIsClash(given: seq<Option<string>>, i: nat, j: nat)
    requires i < j < |given| && SourceNames(given)[i] == SourceNames(given)[j]
    ensures Clash(given, i, j)
  {
    hide SourceNames, DefaultName, TakesDefault;
    var names := SourceNames(given);
    NameAt(given, i);
    NameAt(given, j);
    assert names[i] in names[..j] by { assert names[..j][i] == names[i]; }
    TakesDefaultIs(given, j);
    if names[i] == DefaultName(i) {
      DefaultInjective(i, j);
    }
  }

  /** Such a rulebook: the first source is called what the second, unnamed one becomes. */
  lemma ClashExample()
    ensures SourceNames([Some("__SOURCE_2"), None]) == ["__SOURCE_2", "__SOURCE_2"]
  {
    var given: seq<Option<string>> := [Some("__SOURCE_2"), None];
    assert DefaultName(1) == "__SOURCE_2";
    NameAt(given, 0);
    NameAt(given, 1);
  }

  // ------------------------------------------------- accepting mappings

  /** A mapping as parsed; any key may be missing. */
  datatype RawMapping = RawMapping(
    streamId: Option<nat>, streamName: Option<string>, sourceName: Option<string>, rulebookHash: Option<string>)

  datatype Mapping = Mapping(streamId: nat, streamName: string, sourceName: string, rulebookHash: string)

  datatype Input = Absent | Unparsable | NotAList | Parsed(mappings: seq<RawMapping>)

  /** `sources` are the names given in the rulebook, unless it does not parse. */
  datatype Rulebook = Rulebook(sources: Option<seq<Option<string>>>, hash: string)

  datatype Rejection =
    | BadInput | MissingKeys | RulebookNotFound | BadRulebook | TooMany | Duplicates(names: set<string>)
    | RulebookChanged | NoSuchSource(name: string) | StreamNotFound(id: nat) | StreamNameDiffers(id: nat)

  predicate Complete(m: RawMapping) {
    m.streamId.Some? && m.streamName.Some? && m.sourceName.Some? && m.rulebookHash.Some?
  }

  predicate AllComplete(ms: seq<RawMapping>) { forall i | 0 <= i < |ms| :: Complete(ms[i]) }

  function Whole(m: RawMapping): Mapping
    requires Complete(m)
  {
    Mapping(m.streamId.value, m.streamName.value, m.sourceName.value, m.rulebookHash.value)
  }

  function Wholes(ms: seq<RawMapping>): (r: seq<Mapping>)
    requires AllComplete(ms)
    ensures |r| == |ms|
  {
    seq(|ms|, i requires 0 <= i < |ms| => Whole(ms[i]))
  }

  function SourcesOf(ms: seq<Mapping>): (r: seq<string>)
    ensures |r| == |ms|
  {
    seq(|ms|, i requires 0 <= i < |ms| => ms[i].sourceName)
  }

  function StreamNamesOf(ms: seq<Mapping>): (r: seq<string>)
    ensures |r| == |ms|
  {
    seq(|ms|, i requires 0 <= i < |ms| => ms[i].streamName)
  }

  /** Fails with the names used more than once. */
  method CheckDuplicateNames(used: seq<string>) returns (r: Result<(), set<string>>)
    ensures r.Ok? <==> Distinct(used)
    ensures r.Err? ==> r.error != {} && UsedTwice(used, r.error)
  {
    var duplicateNames: set<string>, names: set<string> := {}, {};
    for i := 0 to |used|
      invariant forall s :: s in names <==> s in used[..i]
      invariant forall s :: s in duplicateNames <==> exists k, j :: 0 <= k < j < i && used[k] == s && used[j] == s
    {
      if used[i] in names {
        assert exists k :: 0 <= k < i && used[k] == used[i];
        duplicateNames := duplicateNames + {used[i]};
      } else {
        assert forall k | 0 <= k < i :: used[..i][k] == used[k];
        names := names + {used[i]};
      }
    }
    if duplicateNames != {} {
      var s :| s in duplicateNames;
      return Err(duplicateNames);
    }
    forall i, j | 0 <= i < j < |used| ensures used[i] != used[j] {
      assert used[i] !in duplicateNames;
    }
    return Ok(());
  }

  /** Every mapped stream exists under the name given. */
  ghost predicate StreamsMatch(ms: seq<Mapping>, streams: map<nat, string>) {
    forall i | 0 <= i < |ms| :: ms[i].streamId in streams && streams[ms[i].streamId] == ms[i].streamName
  }

  /** The error says what is wrong with the stream of a mapping. */
  ghost predicate StreamIsWrong(m: Mapping, streams: map<nat, string>, error: Rejection) {
    if m.streamId !in streams then error == StreamNotFound(m.streamId)
    else error == StreamNameDiffers(m.streamId) && streams[m.streamId] != m.streamName
  }

  function IdsOf(ms: seq<Mapping>): set<nat> { set m | m in ms :: m.streamId }

  method GetEventStreamIds(ms: seq<Mapping>, streams: map<nat, string>) returns (r: Result<set<nat>, Rejection>)
    ensures r.Ok? <==> StreamsMatch(ms, streams)
    ensures r.Ok? ==> r.value == IdsOf(ms)
    ensures r.Err? ==> exists m :: m in ms && StreamIsWrong(m, streams, r.error)
  {
    var ids: set<nat> := {};
    for i := 0 to |ms|
      invariant StreamsMatch(ms[..i], streams) && ids == IdsOf(ms[..i])
    {
      assert ms[i] in ms;
      if ms[i].streamId !in streams {
        return Err(StreamNotFound(ms[i].streamId));
      }
      if streams[ms[i].streamId] != ms[i].streamName {
        return Err(StreamNameDiffers(ms[i].streamId));
      }
      assert ms[..i + 1] == ms[..i] + [ms[i]];
      ids := ids + {ms[i].streamId};
    }
    assert ms[..|ms|] == ms;
    return Ok(ids);
  }

  /** Streams with distinct names have distinct ids, so their set loses none. */
  lemma {:induction false} AsManyIds(ms: seq<Mapping>, streams: map<nat, string>)
    requires StreamsMatch(ms, streams) && Distinct(StreamNamesOf(ms))
    ensures |IdsOf(ms)| == |ms|
  {
    if ms != [] {
      var n := |ms| - 1;
      assert StreamNamesOf(ms[..n]) == StreamNamesOf(ms)[..n];
      AsManyIds(ms[..n], streams);
      assert ms == ms[..n] + [ms[n]];
      assert IdsOf(ms) == IdsOf(ms[..n]) + {ms[n].streamId};
      forall m | m in ms[..n] ensures m.streamId != ms[n].streamId {
        var i :| 0 <= i < n && ms[i] == m;
        assert StreamNamesOf(ms)[i] != StreamNamesOf(ms)[n];
      }
    }
  }

  ghost predicate NamesDiffer(ms: seq<Mapping>) {
    forall i, j | 0 <= i < j < |ms| ::
      ms[i].sourceName != ms[j].sourceName && ms[i].streamName != ms[j].streamName
  }

  lemma DistinctNames(ms: seq<Mapping>)
    ensures Distinct(SourcesOf(ms)) && Distinct(StreamNamesOf(ms)) <==> NamesDiffer(ms)
  {
    assert forall i | 0 <= i < |ms| :: SourcesOf(ms)[i] == ms[i].sourceName && StreamNamesOf(ms)[i] == ms[i].streamName;
    if NamesDiffer(ms) {
      forall i, j | 0 <= i < j < |ms|
        ensures SourcesOf(ms)[i] != SourcesOf(ms)[j] && StreamNamesOf(ms)[i] != StreamNamesOf(ms)[j]
      {
        assert ms[i].sourceName != ms[j].sourceName;
      }
    }
  }

  /** What a list of complete mappings must satisfy for its rulebook. */
  ghost predicate Acceptable(ms: seq<Mapping>, names: seq<string>, hash: string, streams: map<nat, string>) {
    && |ms| <= |names|
    && NamesDiffer(ms)
    && (forall i | 0 <= i < |ms| :: ms[i].rulebookHash == hash && ms[i].sourceName in names)
    && StreamsMatch(ms, streams)
  }

  /** Every mapping has all four keys. */
  ghost predicate NothingMissing(ms: seq<RawMapping>) {
    forall i | 0 <= i < |ms| ::
      && ms[i].streamId.Some? && ms[i].streamName.Some? && ms[i].sourceName.Some? && ms[i].rulebookHash.Some?
  }

  /** The same, said of the mappings as they were parsed. */
  ghost predicate AcceptableAsParsed(ms: seq<RawMapping>, names: seq<string>, hash: string, streams: map<nat, string>)
    requires NothingMissing(ms)
  {
    && |ms| <= |names|
    && (forall i, j | 0 <= i < j < |ms| ::
          ms[i].sourceName != ms[j].sourceName && ms[i].streamName != ms[j].streamName)
    && (forall i | 0 <= i < |ms| ::
          && ms[i].rulebookHash == Some(hash) && ms[i].sourceName.value in names
          && ms[i].streamId.value in streams && streams[ms[i].streamId.value] == ms[i].streamName.value)
  }

  lemma AsParsed(ms: seq<RawMapping>, names: seq<string>, hash: string, streams: map<nat, string>)
    requires NothingMissing(ms)
    ensures AllComplete(ms)
    ensures AcceptableAsParsed(ms, names, hash, streams) <==> Acceptable(Wholes(ms), names, hash, streams)
    ensures forall id :: id in IdsOf(Wholes(ms)) <==> exists m :: m in ms && m.streamId == Some(id)
  {
    var all := Wholes(ms);
    assert forall i | 0 <= i < |ms| ::
        && ms[i].streamId == Some(all[i].streamId) && ms[i].streamName == Some(all[i].streamName)
        && ms[i].sourceName == Some(all[i].sourceName) && ms[i].rulebookHash == Some(all[i].rulebookHash);
    if AcceptableAsParsed(ms, names, hash, streams) {
      forall i, j | 0 <= i < j < |all|
        ensures all[i].sourceName != all[j].sourceName && all[i].streamName != all[j].streamName
      {
        assert ms[i].sourceName != ms[j].sourceName;
      }
    }
    if Acceptable(all, names, hash, streams) {
      forall i, j | 0 <= i < j < |ms|
        ensures ms[i].sourceName != ms[j].sourceName && ms[i].streamName != ms[j].streamName
      {
        assert all[i].sourceName != all[j].sourceName;
      }
    }
    forall id ensures id in IdsOf(Wholes(ms)) <==> exists m :: m in ms && m.streamId == Some(id) {
      if id in IdsOf(Wholes(ms)) {
        var i :| 0 <= i < |ms| && Wholes(ms)[i].streamId == id;
        assert ms[i].streamId == Some(id);
      }
      if m :| m in ms && m.streamId == Some(id) {
        var i :| 0 <= i < |ms| && ms[i] == m;
        assert Wholes(ms)[i].streamId == id;
      }
    }
  }

  /** What makes each kind of rejection true of a list of mappings. */
  ghost predicate IsReason(ms: seq<Mapping>, names: seq<string>, hash: string, streams: map<nat, string>,
                           error: Rejection) {
    match error
    case TooMany => |ms| > |names|
    case Duplicates(twice) => twice != {} && (UsedTwice(SourcesOf(ms), twice) || UsedTwice(StreamNamesOf(ms), twice))
    case RulebookChanged => exists m :: m in ms && m.rulebookHash != hash
    case NoSuchSource(name) => name !in names && exists m :: m in ms && m.sourceName == name
    case StreamNotFound(_) | StreamNameDiffers(_) => exists m :: m in ms && StreamIsWrong(m, streams, error)
    case _ => false
  }

  /** Just the names used more than once. */
  ghost predicate UsedTwice(used: seq<string>, twice: set<string>) {
    forall s :: s in twice <==> exists i, j :: 0 <= i < j < |used| && used[i] == s && used[j] == s
  }

  /** Accepts exactly what is acceptable; the ids to be stored are returned when a rulebook is given. */
  method ValidateSources(input: Input, rulebookId: Option<nat>, rulebooks: map<nat, Rulebook>,
                         streams: map<nat, string>)
    returns (r: Result<Option<set<nat>>, Rejection>)
    ensures input == Absent ==> r == Ok(None)
    ensures input == Unparsable || input == NotAList ==> r == Err(BadInput)
    ensures input.Parsed? && !NothingMissing(input.mappings) ==> r == Err(MissingKeys)
    ensures input.Parsed? && NothingMissing(input.mappings) ==>
      var ms := input.mappings;
      if rulebookId.None? then r == Ok(None)
      else if rulebookId.value !in rulebooks then r == Err(RulebookNotFound)
      else if rulebooks[rulebookId.value].sources.None? then r == Err(BadRulebook)
      else
        var rulebook := rulebooks[rulebookId.value];
        && (r.Ok? <==> AcceptableAsParsed(ms, SourceNames(rulebook.sources.value), rulebook.hash, streams))
        && (r.Ok? ==> r.value.Some? && |r.value.value| == |ms|
                      && forall id :: id in r.value.value <==> exists m :: m in ms && m.streamId == Some(id))
        && (r.Err? ==> AllComplete(ms)
                       && IsReason(Wholes(ms), SourceNames(rulebook.sources.value), rulebook.hash, streams, r.error))
  {
    match input {
      case Absent => return Ok(None);
      case Unparsable | NotAList => return Err(BadInput);
      case Parsed(_) =>
    }
    for i := 0 to |input.mappings|
      invariant forall k | 0 <= k < i :: Complete(input.mappings[k])
    {
      if !Complete(input.mappings[i]) {
        return Err(MissingKeys);
      }
    }
    if rulebookId.None? {
      return Ok(None);
    }
    r := ValidateForRulebook(Wholes(input.mappings), rulebookId.value, rulebooks, streams);
    if rulebookId.value in rulebooks && rulebooks[rulebookId.value].sources.Some? {
      var rulebook := rulebooks[rulebookId.value];
      AsParsed(input.mappings, SourceNames(rulebook.sources.value), rulebook.hash, streams);
    }
  }

  method ValidateForRulebook(ms: seq<Mapping>, rulebookId: nat, rulebooks: map<nat, Rulebook>,
                             streams: map<nat, string>)
    returns (r: Result<Option<set<nat>>, Rejection>)
    ensures
      if rulebookId !in rulebooks then r == Err(RulebookNotFound)
      else if rulebooks[rulebookId].sources.None? then r == Err(BadRulebook)
      else
        var rulebook := rulebooks[rulebookId];
        && (r.Ok? <==> Acceptable(ms, SourceNames(rulebook.sources.value), rulebook.hash, streams))
        && (r.Ok? ==> r.value.Some? && r.value.value == IdsOf(ms) && |r.value.value| == |ms|)
        && (r.Err? ==> IsReason(ms, SourceNames(rulebook.sources.value), rulebook.hash, streams, r.error))
  {
    if rulebookId !in rulebooks {
      return Err(RulebookNotFound);
    }
    var rulebook := rulebooks[rulebookId];
    if rulebook.sources.None? {
      return Err(BadRulebook);
    }
    var names := BuildSourceList(rulebook.sources.value);
    if |ms| > |names| {
      return Err(TooMany);
    }
    DistinctNames(ms);
    var sources := CheckDuplicateNames(SourcesOf(ms));
    if sources.Err? {
      return Err(Duplicates(sources.error));
    }
    var streamNames := CheckDuplicateNames(StreamNamesOf(ms));
    if streamNames.Err? {
      return Err(Duplicates(streamNames.error));
    }
    for i := 0 to |ms|
      invariant forall k | 0 <= k < i :: ms[k].rulebookHash == rulebook.hash
    {
      if ms[i].rulebookHash != rulebook.hash {
        assert ms[i] in ms;
        return Err(RulebookChanged);
      }
    }
    for i := 0 to |ms|
      invariant forall k | 0 <= k < i :: ms[k].sourceName in names
    {
      if ms[i].sourceName !in names {
        assert ms[i] in ms;
        return Err(NoSuchSource(ms[i].sourceName));
      }
    }
    var ids := GetEventStreamIds(ms, streams);
    if ids.Err? {
      return Err(ids.error);
    }
    AsManyIds(ms, streams);
    return Ok(Some(ids.value));
  }

  // ------------------------------------------------- what an accepted list replaces

  /** The positions of the sources that a list of mappings replaces. */
  ghost function Replaced(names: seq<string>, ms: seq<Mapping>): set<nat> {
    set i: nat | i < |names| && exists k :: 0 <= k < |ms| && ms[k].sourceName == names[i]
  }

  /** With distinct source names an accepted list replaces one source for each of its mappings, and no other. */
  lemma {:induction false} ReplacesOneEach(names: seq<string>, ms: seq<Mapping>, hash: string,
                                           streams: map<nat, string>)
    requires Acceptable(ms, names, hash, streams) && Distinct(names)
    ensures |Replaced(names, ms)| == |ms|
  {
    hide Replaced, Distinct, StreamsMatch;
    if ms == [] {
      NothingReplaced(names, ms);
    } else {
      var n := |ms| - 1;
      AcceptablePrefix(names, ms, hash, streams);
      ReplacesOneEach(names, ms[..n], hash, streams);
      var p: nat :| p < |names| && names[p] == ms[n].sourceName;
      OneMoreReplaced(names, ms, hash, streams, p);
    }
  }

  lemma NothingReplaced(names: seq<string>, ms: seq<Mapping>)
    requires ms == []
    ensures Replaced(names, ms) == {}
  {
  }

  lemma AcceptablePrefix(names: seq<string>, ms: seq<Mapping>, hash: string, streams: map<nat, string>)
    requires Acceptable(ms, names, hash, streams) && ms != []
    ensures Acceptable(ms[..|ms| - 1], names, hash, streams)
  {
  }

  lemma OneMoreReplaced(names: seq<string>, ms: seq<Mapping>, hash: string, streams: map<nat, string>, p: nat)
    requires Acceptable(ms, names, hash, streams) && ms != [] && Distinct(names) && p < |names|
    requires names[p] == ms[|ms| - 1].sourceName
    ensures Replaced(names, ms) == Replaced(names, ms[..|ms| - 1]) + {p} && p !in Replaced(names, ms[..|ms| - 1])
  {
    var n := |ms| - 1;
    var before := Replaced(names, ms[..n]);
    forall i: nat | i < |names| ensures i in Replaced(names, ms) <==> i in before || i == p {
      if i in Replaced(names, ms) && i != p {
        var k :| 0 <= k < |ms| && ms[k].sourceName == names[i];
        assert ms[..n][k].sourceName == names[i];
      }
      if i in before {
        var k :| 0 <= k < n && ms[..n][k].sourceName == names[i];
        assert ms[k].sourceName == names[i];
      }
    }
  }
}
