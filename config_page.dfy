/** The configuration page: loading and saving the bot configuration, and
    the dotted-path edit `handleChange`.

    The configuration is a JavaScript object graph: a top-level object whose
    entries are section objects (or, after an edit of a one-segment path,
    plain values), each section an object of plain values.  Objects are
    classes here because `handleChange` copies only the top level and then
    assigns into a section it shares with the previous configuration. */
module ConfigPage {
  import opened Wrappers
  import Types

  /** A value an input hands to `handleChange` (`Number(v)` or the raw
      string). */
  datatype Scalar = Num(n: real) | Str(s: string)

  class SectionObj {
    var fields: map<string, Scalar>

    constructor (fields: map<string, Scalar>)
      ensures this.fields == fields
    {
      this.fields := fields;
    }
  }

  /** A top-level entry: a reference to a section object, or a plain value. */
  datatype Slot = SectionRef(obj: SectionObj) | Plain(value: Scalar)

  class ConfigObj {
    var entries: map<string, Slot>

    constructor (entries: map<string, Slot>)
      ensures this.entries == entries
    {
      this.entries := entries;
    }
  }

  /** The section objects a top level refers to. */
  function SectionsIn(entries: map<string, Slot>): set<SectionObj> {
    set k | k in entries && entries[k].SectionRef? :: entries[k].obj
  }

  // ----- `path.split(".")` -----

  /** `s.split(sep)` for a one-character separator: the pieces between
      separators, empty pieces included. */
  function Split(s: string, sep: char): (parts: seq<string>)
    ensures |parts| >= 1
    ensures forall i :: 0 <= i < |parts| ==> sep !in parts[i]
    decreases |s|
  {
    if s == [] then [""]
    else
      var rest := Split(s[1..], sep);
      if s[0] == sep then [""] + rest
      else [[s[0]] + rest[0]] + rest[1..]
  }

  /** `parts.join(sep)`. */
  function Join(parts: seq<string>, sep: char): string
    requires |parts| >= 1
    decreases |parts|
  {
    if |parts| == 1 then parts[0] else parts[0] + [sep] + Join(parts[1..], sep)
  }

  /** Splitting and joining again gives back the path. */
  lemma {:induction false} JoinSplit(s: string, sep: char)
    ensures Join(Split(s, sep), sep) == s
    decreases |s|
  {
    if s != [] {
      var rest := Split(s[1..], sep);
      JoinSplit(s[1..], sep);
      if s[0] == sep {
        assert ([""] + rest)[1..] == rest;
        assert s == [sep] + s[1..];
      } else if |rest| == 1 {
        assert s == [s[0]] + s[1..];
      } else {
        var parts := Split(s, sep);
        assert parts[1..] == rest[1..];
        assert Join(rest, sep) == rest[0] + [sep] + Join(rest[1..], sep);
        assert s == [s[0]] + s[1..];
      }
    }
  }

  /** Joining pieces that contain no separator and splitting again gives back
      the pieces. */
  lemma {:induction false} SplitJoin(parts: seq<string>, sep: char)
    requires |parts| >= 1
    requires forall i :: 0 <= i < |parts| ==> sep !in parts[i]
    ensures Split(Join(parts, sep), sep) == parts
    decreases |parts|
  {
    if |parts| == 1 {
      SplitWithoutSep(parts[0], sep);
    } else {
      SplitJoin(parts[1..], sep);
      SplitAtFirstSep(parts[0], sep, Join(parts[1..], sep));
      assert [parts[0]] + parts[1..] == parts;
    }
  }

  lemma {:induction false} SplitWithoutSep(p: string, sep: char)
    requires sep !in p
    ensures Split(p, sep) == [p]
    decreases |p|
  {
    if p != [] {
      SplitWithoutSep(p[1..], sep);
      assert [p[0]] + p[1..] == p;
    }
  }

  lemma {:induction false} SplitAtFirstSep(p: string, sep: char, rest: string)
    requires sep !in p
    ensures Split(p + [sep] + rest, sep) == [p] + Split(rest, sep)
    decreases |p|
  {
    var s := p + [sep] + rest;
    if p == [] {
      assert s[1..] == rest;
    } else {
      assert s[1..] == p[1..] + [sep] + rest;
      SplitAtFirstSep(p[1..], sep, rest);
      assert [p[0]] + p[1..] == p;
    }
  }

  /** "section.field" splits into the section and the field. */
  lemma SplitTwoSegments(section: string, field: string)
    requires '.' !in section && '.' !in field
    ensures Split(section + "." + field, '.') == [section, field]
  {
    assert Join([section, field], '.') == section + "." + field;
    SplitJoin([section, field], '.');
  }

  // ----- What `handleChange` assigns to -----

  /** Where the final assignment of `handleChange` lands: a top-level entry
      of the copy, a field of a (shared) section object, or nowhere because
      a `TypeError` is thrown first (reading a property of `undefined`, or
      assigning a property to a primitive in strict mode). */
  datatype Target = TopLevel(key: string) | InSection(obj: SectionObj, field: string) | TypeError

  function Resolve(entries: map<string, Slot>, keys: seq<string>): (t: Target)
    requires |keys| >= 1
    ensures |keys| == 1 ==> t == TopLevel(keys[0])
    ensures |keys| == 2 ==>
      (t.InSection? <==> keys[0] in entries && entries[keys[0]].SectionRef?)
    ensures |keys| == 2 && t.InSection? ==> t.obj == entries[keys[0]].obj && t.field == keys[1]
    ensures |keys| >= 2 && !t.InSection? ==> t.TypeError?
    ensures t.InSection? ==> t.obj in SectionsIn(entries)
    ensures |keys| >= 3 ==> t.TypeError?
  {
    if |keys| == 1 then TopLevel(keys[0])
    else if |keys| == 2 && keys[0] in entries && entries[keys[0]].SectionRef? then
      InSection(entries[keys[0]].obj, keys[1])
    else TypeError
  }

  /** Where the walk of `handleChange` is: at the copied top level, at a
      section object, at a plain value, or at `undefined`. */
  datatype Cursor = AtConfig(c: ConfigObj) | AtSection(o: SectionObj) | AtScalar(v: Scalar) | AtUndefined

  /** `current[key]` from the top level. */
  function EntryCursor(entries: map<string, Slot>, key: string): (r: Cursor)
    ensures r.AtUndefined? <==> key !in entries
    ensures r.AtSection? <==> key in entries && entries[key].SectionRef?
    ensures r.AtSection? ==> r.o == entries[key].obj && r.o in SectionsIn(entries)
    ensures r.AtScalar? ==> entries[key] == Plain(r.v)
    ensures !r.AtConfig?
  {
    if key !in entries then AtUndefined
    else match entries[key]
      case SectionRef(o) => AtSection(o)
      case Plain(v) => AtScalar(v)
  }

  // ----- The page -----

  datatype MessageKind = Success | Failure

  datatype Message = Message(kind: MessageKind, text: string)

  const LoadFailedText: string := "Failed to load configuration"
  const SavedText: string := "Configuration saved successfully!"
  const SaveFailedText: string := "Failed to save configuration"

  datatype Screen = LoadingScreen | LoadFailedScreen | Form

  class Page {
    var config: Option<ConfigObj>
    var loading: bool
    var saving: bool
    var message: Option<Message>
    /** Configurations handed to `apiClient.updateConfig`, in order. */
    var saveRequests: seq<ConfigObj>
    /** `setTimeout(() => setMessage(null), 3000)` calls not yet fired. */
    var pendingClears: nat

    constructor ()
      ensures config.None? && loading && !saving && message.None?
      ensures saveRequests == [] && pendingClears == 0
    {
      config := None;
      loading := true;
      saving := false;
      message := None;
      saveRequests := [];
      pendingClears := 0;
    }

    function Render(): (s: Screen)
      reads this
      ensures s == LoadingScreen <==> loading
      ensures s == LoadFailedScreen <==> !loading && config.None?
    {
      if loading then LoadingScreen else if config.None? then LoadFailedScreen else Form
    }

    /** `fetchConfig()`: `fetched` is the decoded REST response, `None` when
        the request fails. */
    method FetchConfig(fetched: Option<ConfigObj>)
      modifies this
      ensures !loading && saving == old(saving) && saveRequests == old(saveRequests)
      ensures pendingClears == old(pendingClears)
      ensures fetched.Some? ==> config == fetched && message == old(message)
      ensures fetched.None? ==> config == old(config) && message == Some(Message(Failure, LoadFailedText))
    {
      if fetched.Some? {
        config := fetched;
      } else {
        message := Some(Message(Failure, LoadFailedText));
      }
      loading := false;
    }

    /** `handleSave()`: `ok` tells whether `updateConfig` succeeds. */
    method HandleSave(ok: bool)
      modifies this
      ensures config == old(config) && loading == old(loading)
      ensures old(config).None? ==>
        saving == old(saving) && message == old(message)
        && saveRequests == old(saveRequests) && pendingClears == old(pendingClears)
      ensures old(config).Some? ==>
        && !saving
        && saveRequests == old(saveRequests) + [old(config).value]
        && message == Some(if ok then Message(Success, SavedText) else Message(Failure, SaveFailedText))
        && pendingClears == old(pendingClears) + if ok then 1 else 0
    {
      if config.None? {
        return;
      }
      saving := true;
      saveRequests := saveRequests + [config.value];
      if ok {
        message := Some(Message(Success, SavedText));
        pendingClears := pendingClears + 1;
      } else {
        message := Some(Message(Failure, SaveFailedText));
      }
      saving := false;
    }

    /** A 3-second timer of a successful save fires and clears whatever
        message is shown. */
    method ClearTimerFired()
      requires pendingClears > 0
      modifies this
      ensures message.None? && pendingClears == old(pendingClears) - 1
      ensures config == old(config) && loading == old(loading) && saving == old(saving)
      ensures saveRequests == old(saveRequests)
    {
      message := None;
      pendingClears := pendingClears - 1;
    }

    /** `handleChange(path, value)`; `threw` tells whether a `TypeError`
        escapes. */
    method HandleChange(path: string, value: Scalar) returns (threw: bool)
      modifies this, if config.Some? then SectionsIn(config.value.entries) else {}
      ensures loading == old(loading) && saving == old(saving) && message == old(message)
      ensures saveRequests == old(saveRequests) && pendingClears == old(pendingClears)
      ensures old(config).None? ==> !threw && config == old(config)
      ensures old(config).Some? ==>
        var entries := old(config.value.entries);
        var t := Resolve(entries, Split(path, '.'));
        && (threw <==> t.TypeError?)
        && (t.TypeError? ==> config == old(config))
        && (!t.TypeError? ==> config.Some? && fresh(config.value))
        && (t.TopLevel? ==> config.value.entries == entries[t.key := Plain(value)])
        && (t.InSection? ==> config.value.entries == entries && t.obj.fields == old(t.obj.fields)[t.field := value])
        && (forall s :: s in SectionsIn(entries) && !(t.InSection? && s == t.obj) ==> s.fields == old(s.fields))
    {
      if config.None? {
        return false;
      }
      var c := config.value;
      var keys := Split(path, '.');
      var n := new ConfigObj(c.entries);
      var current := AtConfig(n);
      var i := 0;
      while i < |keys| - 1
        invariant 0 <= i <= |keys| - 1
        invariant i == 0 ==> current == AtConfig(n)
        invariant i == 1 ==> current == EntryCursor(c.entries, keys[0])
        invariant i >= 2 ==> current.AtScalar? || current.AtUndefined?
        invariant current.AtSection? ==> current.o in SectionsIn(c.entries)
        invariant i >= 1 ==> |keys| >= 2
        decreases |keys| - 1 - i
      {
        match current {
          case AtConfig(o) =>
            current := EntryCursor(o.entries, keys[i]);
          case AtSection(o) =>
            current := if keys[i] in o.fields then AtScalar(o.fields[keys[i]]) else AtUndefined;
          case AtScalar(_) =>
            current := AtUndefined;
          case AtUndefined =>
            return true;
        }
        i := i + 1;
      }
      var last := keys[|keys| - 1];
      match current {
        case AtConfig(o) =>
          o.entries := o.entries[last := Plain(value)];
        case AtSection(o) =>
          o.fields := o.fields[last := value];
        case _ =>
          return true;
      }
      config := Some(n);
      threw := false;
    }
  }

  /** The copy shares its sections with the previous configuration, so an
      edit of "section.field" shows through the previous configuration too. */
  method AliasingScenario()
  {
    var trading := new SectionObj(map["symbol" := Str("BTCUSDT"), "leverage" := Num(10.0)]);
    var risk := new SectionObj(map["maxPositions" := Num(1.0)]);
    var before := new ConfigObj(map["trading" := SectionRef(trading), "risk" := SectionRef(risk)]);
    var page := new Page();
    page.FetchConfig(Some(before));
    SplitTwoSegments("trading", "symbol");
    var threw := page.HandleChange("trading" + "." + "symbol", Str("ETHUSDT"));
    assert !threw && page.config.Some? && page.config.value != before;
    assert before.entries["trading"].obj.fields["symbol"] == Str("ETHUSDT");
    assert trading.fields["leverage"] == Num(10.0) && risk.fields == map["maxPositions" := Num(1.0)];
  }

  // ----- What the page's inputs send -----

  /** The (section, field) of every `handleChange("section.field", …)` call
      of the page's inputs, in page order. */
  const PageFields: seq<(string, string)> := [
    ("trading", "symbol"), ("trading", "orderQuantity"), ("trading", "leverage"), ("trading", "marginType"),
    ("strategy", "profitMultiplier"), ("strategy", "riskRewardRatio"), ("strategy", "maxConsecutiveLosses"),
    ("strategy", "checkIntervalMs"), ("strategy", "directionPreference"),
    ("risk", "maxDailyLossUSDT"), ("risk", "maxPositions")]

  /** Every path the page's inputs use is a "section.field" path into a
      `BotConfig` section, so with a well-formed configuration it lands on
      a field of the shared section object. */
  lemma PagePathsReachSections(entries: map<string, Slot>, i: nat)
    requires i < |PageFields|
    requires PageFields[i].0 in entries && entries[PageFields[i].0].SectionRef?
    ensures PageFields[i].0 in Types.ConfigSections
    ensures var (section, field) := PageFields[i];
      Resolve(entries, Split(section + "." + field, '.')) == InSection(entries[section].obj, field)
  {
    var (section, field) := PageFields[i];
    assert '.' !in section && '.' !in field;
    SplitTwoSegments(section, field);
  }

  // ----- The `Select` options -----

  datatype OptionElement = OptionElement(key: string, value: string, text: string)

  /** `options.map((opt) => { <option …/>; })`: the arrow has a block body
      without `return`, so every element maps to `undefined`. */
  function SelectChildren(options: seq<string>): (children: seq<Option<OptionElement>>)
    ensures |children| == |options|
    ensures forall i :: 0 <= i < |children| ==> children[i].None?
  {
    seq(|options|, i requires 0 <= i < |options| => None)
  }

  /** How many `<option>` elements the list renders. */
  function Rendered(children: seq<Option<OptionElement>>): nat {
    if children == [] then 0 else (if children[0].Some? then 1 else 0) + Rendered(children[1..])
  }

  /** As written, a `Select` renders no option at all, whatever its
      options: the margin-type and direction selects are empty. */
  lemma {:induction false} SelectRendersNothing(options: seq<string>)
    ensures Rendered(SelectChildren(options)) == 0
  {
    NothingRendered(SelectChildren(options));
  }

  lemma {:induction false} NothingRendered(children: seq<Option<OptionElement>>)
    requires forall i :: 0 <= i < |children| ==> children[i].None?
    ensures Rendered(children) == 0
  {
    if children != [] {
      NothingRendered(children[1..]);
    }
  }

  /** The margin-type select offers nothing to choose. */
  lemma MarginTypeSelectEmpty()
    ensures Rendered(SelectChildren(["ISOLATED", "CROSSED"])) == 0
  {
    SelectRendersNothing(["ISOLATED", "CROSSED"]);
  }

  /** The evident intent: one labelled `<option>` per entry. */
  function SelectChildrenIntended(options: seq<string>): (children: seq<Option<OptionElement>>)
    ensures |children| == |options|
    ensures forall i :: 0 <= i < |options| ==>
      children[i] == Some(OptionElement(options[i], options[i], options[i]))
  {
    seq(|options|, i requires 0 <= i < |options| => Some(OptionElement(options[i], options[i], options[i])))
  }

  /** With the intended mapping every option is rendered, with its own value,
      in order. */
  lemma {:induction false} IntendedSelectRendersAll(options: seq<string>)
    ensures Rendered(SelectChildrenIntended(options)) == |options|
    ensures forall i :: 0 <= i < |options| ==> SelectChildrenIntended(options)[i].value.value == options[i]
  {
    AllRendered(SelectChildrenIntended(options));
  }

  lemma {:induction false} AllRendered(children: seq<Option<OptionElement>>)
    requires forall i :: 0 <= i < |children| ==> children[i].Some?
    ensures Rendered(children) == |children|
  {
    if children != [] {
      AllRendered(children[1..]);
    }
  }
}
