/**
 * ProfileStore: the INI file behind a profile (a ConfigParser with
 * interpolation turned off), `_dset` and `_dump` on whole sections, and the
 * Profile object whose save and load move options between the two
 * (webapps/profiles.py).
 */
module ProfileStore {
  import opened Wrappers
  import opened Text
  import opened Profiles

  // ---------------------------------------------------------------------
  // The INI file
  // ---------------------------------------------------------------------

  /** ConfigParser's `default_section`: options shared by every section. */
  const DefaultSection: string := "DEFAULT"

  datatype IniError =
    | NoSection(section: string)            // ConfigParser.set on a missing section
    | DuplicateSection(section: string)     // add_section of an existing section
    | InvalidSectionName(section: string)   // add_section("DEFAULT") raises ValueError
    | MissingSection(section: string)       // profile[section] raises KeyError

  /** The contents of a ConfigParser: its DEFAULT options and its named sections. */
  datatype IniState = IniState(defaults: Section, sections: map<string, Section>)

  /** What ConfigParser keeps true: DEFAULT is held apart and every option name is lower-case. */
  ghost predicate WellFormedIni(st: IniState) {
    && DefaultSection !in st.sections
    && (forall k :: k in st.defaults ==> IsLowerCase(k))
    && (forall s, k :: s in st.sections && k in st.sections[s] ==> IsLowerCase(k))
  }

  /** ConfigParser.set sends options for the empty section name and for DEFAULT to the DEFAULT options. */
  predicate TargetsDefaults(section: string) {
    section == "" || section == DefaultSection
  }

  /** `profile[section].items()`: a section's own options over the DEFAULT ones; None where indexing raises KeyError. */
  function Items(st: IniState, section: string): Option<Section> {
    if section == DefaultSection then Some(st.defaults)
    else if section in st.sections then Some(st.defaults + st.sections[section])
    else None
  }

  /** add_section. */
  function AddSectionTo(st: IniState, name: string): Result<IniState, IniError> {
    if name == DefaultSection then Failure(InvalidSectionName(name))
    else if name in st.sections then Failure(DuplicateSection(name))
    else Success(st.(sections := st.sections[name := map[]]))
  }

  /** The options that ConfigParser.set writes into for `section`; None when the section is missing. */
  function Target(st: IniState, section: string): Option<Section> {
    if TargetsDefaults(section) then Some(st.defaults)
    else if section in st.sections then Some(st.sections[section])
    else None
  }

  /** The file with the options for `section` replaced by `options`. */
  function Put(st: IniState, section: string, options: Section): IniState
    requires Target(st, section).Some?
  {
    if TargetsDefaults(section) then st.(defaults := options)
    else st.(sections := st.sections[section := options])
  }

  /** set(section, option, text); the option name goes through ConfigParser's lower-casing. */
  function SetOptionIn(st: IniState, section: string, option: string, text: string): Result<IniState, IniError> {
    match Target(st, section)
    case None => Failure(NoSection(section))
    case Some(options) => Success(Put(st, section, options[Lower(option) := text]))
  }

  /** A ConfigParser object; its methods change its contents in place. */
  class ConfigFile {
    var defaults: Section
    var sections: map<string, Section>

    ghost function State(): IniState
      reads this
    {
      IniState(defaults, sections)
    }

    ghost predicate Valid()
      reads this
    {
      WellFormedIni(State())
    }

    /** ConfigParser(interpolation=None): no sections. */
    constructor ()
      ensures Valid() && State() == IniState(map[], map[])
    {
      defaults, sections := map[], map[];
    }

    /** ConfigParser.read of a file whose parse is `parsed`. */
    constructor Read(parsed: IniState)
      requires WellFormedIni(parsed)
      ensures Valid() && State() == parsed
    {
      defaults, sections := parsed.defaults, parsed.sections;
    }

    predicate HasSection(name: string)
      reads this
    {
      name in sections
    }

    method AddSection(name: string) returns (err: Option<IniError>)
      requires Valid()
      modifies this
      ensures Valid()
      ensures AddSectionTo(old(State()), name).Success? ==> err.None? && State() == AddSectionTo(old(State()), name).value
      ensures AddSectionTo(old(State()), name).Failure? ==> err == Some(AddSectionTo(old(State()), name).error) && State() == old(State())
    {
      if name == DefaultSection {
        return Some(InvalidSectionName(name));
      }
      if name in sections {
        return Some(DuplicateSection(name));
      }
      sections := sections[name := map[]];
      err := None;
    }

    method Set(section: string, option: string, text: string) returns (err: Option<IniError>)
      requires Valid()
      modifies this
      ensures Valid()
      ensures SetOptionIn(old(State()), section, option, text).Success? ==> err.None? && State() == SetOptionIn(old(State()), section, option, text).value
      ensures SetOptionIn(old(State()), section, option, text).Failure? ==> err == Some(NoSection(section)) && State() == old(State())
    {
      var key := Lower(option);
      if TargetsDefaults(section) {
        defaults := defaults[key := text];
      } else if section in sections {
        sections := sections[section := sections[section][key := text]];
      } else {
        return Some(NoSection(section));
      }
      err := None;
    }
  }

  // ---------------------------------------------------------------------
  // _dset and _dump on whole sections
  // ---------------------------------------------------------------------

  /** No two keys that ConfigParser's lower-casing would merge. */
  predicate CaseDistinct(ns: Namespace) {
    forall a, b :: a in ns && b in ns && Lower(a) == Lower(b) ==> a == b
  }

  /** The options `_dset` writes for the keys in `keys`. */
  function EncodedOptions(ns: Namespace, keys: set<string>): Section
    requires NoDefault(ns) && CaseDistinct(ns)
  {
    map k | k in keys && k in ns :: Lower(k) := EncodeOption(ns[k])
  }

  /** The options `_dset` writes: one per key of ns, under its lower-cased name. */
  function EncodeSection(ns: Namespace): Section
    requires NoDefault(ns) && CaseDistinct(ns)
  {
    EncodedOptions(ns, ns.Keys)
  }

  /** The state `_dset(profile, section, ns)` leaves. */
  function WithOptions(st: IniState, section: string, ns: Namespace): Result<IniState, IniError>
    requires NoDefault(ns) && CaseDistinct(ns)
  {
    if ns == map[] then Success(st)
    else match Target(st, section)
      case None => Failure(NoSection(section))
      case Some(options) => Success(Put(st, section, options + EncodeSection(ns)))
  }

  /**
   * `_dset`: one ConfigParser.set per key, writing the key's encoded value.
   * Nothing else in the file changes; a missing section raises at the first key.
   */
  method Dset(profile: ConfigFile, section: string, ns: Namespace) returns (err: Option<IniError>)
    requires profile.Valid() && NoDefault(ns) && CaseDistinct(ns)
    modifies profile
    ensures profile.Valid()
    ensures WithOptions(old(profile.State()), section, ns).Success? ==>
      err.None? && profile.State() == WithOptions(old(profile.State()), section, ns).value
    ensures WithOptions(old(profile.State()), section, ns).Failure? ==>
      err == Some(NoSection(section)) && profile.State() == old(profile.State())
  {
    ghost var st0 := profile.State();
    var pending := ns.Keys;
    ghost var done: set<string> := {};
    if Target(st0, section).Some? {
      PutUnchanged(st0, section, ns);
    }
    while pending != {}
      invariant profile.Valid()
      invariant pending !! done && pending + done == ns.Keys
      invariant Target(st0, section).None? ==> done == {} && profile.State() == st0
      invariant Target(st0, section).Some? ==>
        profile.State() == Put(st0, section, Target(st0, section).value + EncodedOptions(ns, done))
      decreases pending
    {
      var k :| k in pending;
      if Target(st0, section).Some? {
        SetStep(st0, section, ns, done, k);
      }
      err := profile.Set(section, k, EncodeOption(ns[k]));
      if err.Some? {
        return;
      }
      pending := pending - {k};
      done := done + {k};
    }
    assert done == ns.Keys;
    err := None;
  }

  lemma EncodedInsert(ns: Namespace, done: set<string>, k: string)
    requires NoDefault(ns) && CaseDistinct(ns) && k in ns
    ensures EncodedOptions(ns, done + {k}) == EncodedOptions(ns, done)[Lower(k) := EncodeOption(ns[k])]
  {
    var before, after := EncodedOptions(ns, done), EncodedOptions(ns, done + {k});
    var expected := before[Lower(k) := EncodeOption(ns[k])];
    forall n | n in after ensures n in expected && after[n] == expected[n] {
      var x :| x in done + {k} && x in ns && Lower(x) == n;
      if x != k {
        assert n in before;
      }
    }
    forall n | n in expected ensures n in after {
      if n != Lower(k) {
        var x :| x in done && x in ns && Lower(x) == n;
        assert x in done + {k};
      }
    }
  }

  lemma PutUnchanged(st: IniState, section: string, ns: Namespace)
    requires NoDefault(ns) && CaseDistinct(ns)
    requires Target(st, section).Some?
    ensures Put(st, section, Target(st, section).value + EncodedOptions(ns, {})) == st
  {
    assert EncodedOptions(ns, {}) == map[];
    assert Target(st, section).value + map[] == Target(st, section).value;
  }

  /** One ConfigParser.set inside `_dset` adds one more encoded option to the target. */
  lemma SetStep(st: IniState, section: string, ns: Namespace, done: set<string>, k: string)
    requires NoDefault(ns) && CaseDistinct(ns)
    requires Target(st, section).Some? && k in ns
    ensures SetOptionIn(Put(st, section, Target(st, section).value + EncodedOptions(ns, done)), section, k, EncodeOption(ns[k]))
      == Success(Put(st, section, Target(st, section).value + EncodedOptions(ns, done + {k})))
  {
    var options := Target(st, section).value;
    var before := EncodedOptions(ns, done);
    var text := EncodeOption(ns[k]);
    SetOnPut(st, section, options + before, k, text);
    EncodedInsert(ns, done, k);
    UnionInsert(options, before, Lower(k), text);
  }

  lemma SetOnPut(st: IniState, section: string, options: Section, option: string, text: string)
    requires Target(st, section).Some?
    ensures SetOptionIn(Put(st, section, options), section, option, text)
      == Success(Put(st, section, options[Lower(option) := text]))
  {
    var mid := Put(st, section, options);
    assert Target(mid, section) == Some(options);
    if !TargetsDefaults(section) {
      assert mid.sections[section := options[Lower(option) := text]]
        == st.sections[section := options[Lower(option) := text]];
    }
  }

  lemma UnionInsert(a: Section, b: Section, key: string, text: string)
    ensures (a + b)[key := text] == a + b[key := text]
  {
  }

  /** The dictionary `_dump` builds from a section's options. */
  function DecodeSection(items: Section): Namespace {
    map k | k in items && DecodeOption(items[k]).Some? :: DecodeOption(items[k]).value
  }

  /**
   * `_dump`: every option of the section except the "py:default" ones,
   * decoded; indexing a missing section raises KeyError.
   */
  method Dump(profile: ConfigFile, section: string) returns (r: Result<Namespace, IniError>)
    ensures Items(profile.State(), section).None? ==> r == Failure(MissingSection(section))
    ensures Items(profile.State(), section).Some? ==> (r.Success? &&
      var items := Items(profile.State(), section).value;
      && r.value.Keys <= items.Keys
      && (forall k :: k in items ==> (k in r.value <==> items[k] != DefaultKey))
      && (forall k :: k in r.value ==> DecodeOption(items[k]) == Some(r.value[k])))
    ensures r.Success? ==> r.value == DecodeSection(Items(profile.State(), section).value)
  {
    if section != DefaultSection && section !in profile.sections {
      return Failure(MissingSection(section));
    }
    var items := if section == DefaultSection then profile.defaults else profile.defaults + profile.sections[section];
    var data: Namespace := map[];
    var pending := items.Keys;
    while pending != {}
      invariant pending <= items.Keys
      invariant data.Keys <= items.Keys - pending
      invariant forall k :: k in items && k !in pending ==> (k in data <==> items[k] != DefaultKey)
      invariant forall k :: k in data ==> DecodeOption(items[k]) == Some(data[k])
      decreases pending
    {
      var k :| k in pending;
      pending := pending - {k};
      var v := items[k];
      var decoded := DecodeOption(v);
      if decoded.None? {
        continue;
      }
      data := data[k := decoded.value];
    }
    r := Success(data);
  }

  /** Writing a section and reading it back: which keys come back, and that surviving values come back unchanged. */
  lemma {:induction false} SectionRoundTrip(ns: Namespace)
    requires NoDefault(ns) && forall k :: k in ns ==> IsLowerCase(k)
    ensures CaseDistinct(ns)
    ensures var back := DecodeSection(EncodeSection(ns));
      && back.Keys <= ns.Keys
      && (forall k :: k in ns ==> (k in back <==> ns[k] != Str(DefaultKey)))
      && (forall k :: k in ns && SurvivesRoundTrip(ns[k]) ==> k in back && back[k] == ns[k])
  {
    LowerCaseDistinct(ns);
    var sec := EncodeSection(ns);
    var back := DecodeSection(sec);
    forall k | k in ns
      ensures k in back <==> ns[k] != Str(DefaultKey)
      ensures SurvivesRoundTrip(ns[k]) ==> k in back && back[k] == ns[k]
    {
      EncodedEntry(ns, k);
      DecodedEntry(ns, sec, k);
    }
    forall j | j in back ensures j in ns {
      EncodedKeyOrigin(ns, j);
      LowerKeyIn(ns, j);
    }
  }

  /** One option written by `_dset` and read back by `_dump`. */
  lemma DecodedEntry(ns: Namespace, items: Section, k: string)
    requires k in ns && ns[k] != Default && k in items && items[k] == EncodeOption(ns[k])
    ensures k in DecodeSection(items) <==> ns[k] != Str(DefaultKey)
    ensures SurvivesRoundTrip(ns[k]) ==> k in DecodeSection(items) && DecodeSection(items)[k] == ns[k]
  {
    SentinelText(ns[k]);
    RoundTrip(ns[k]);
  }

  lemma LowerFixes(k: string)
    requires IsLowerCase(k)
    ensures Lower(k) == k
  {
  }

  lemma LowerCaseDistinct(ns: Namespace)
    requires forall k :: k in ns ==> IsLowerCase(k)
    ensures CaseDistinct(ns)
  {
    forall a, b | a in ns && b in ns && Lower(a) == Lower(b) ensures a == b {
      LowerFixes(a);
      LowerFixes(b);
    }
  }

  lemma UpperCaseDistinct(ns: Namespace)
    requires forall k :: k in ns ==> IsUpperCase(k)
    ensures CaseDistinct(ns)
  {
    forall a, b | a in ns && b in ns && Lower(a) == Lower(b) ensures a == b {
      UpperLower(a);
      UpperLower(b);
    }
  }

  /**
   * The webview settings are saved under lower-cased names and upper-cased
   * again on load: every value that survives the option round trip comes
   * back under its own name, and no other name appears.
   */
  lemma {:induction false} CommonRoundTrip(ns: Namespace)
    requires NoDefault(ns) && forall k :: k in ns ==> IsUpperCase(k)
    ensures CaseDistinct(ns)
    ensures forall k :: k in DecodeSection(EncodeSection(ns)) ==> IsLowerCase(k)
    ensures var back := UpperKeys(DecodeSection(EncodeSection(ns)));
      && back.Keys <= ns.Keys
      && (forall k :: k in ns && SurvivesRoundTrip(ns[k]) ==> k in back && back[k] == ns[k])
  {
    UpperCaseDistinct(ns);
    var sec := EncodeSection(ns);
    var decoded := DecodeSection(sec);
    forall j | j in decoded ensures IsLowerCase(j) && exists k :: k in ns && Lower(k) == j && Upper(j) == k {
      var k :| k in ns && Lower(k) == j;
      UpperLower(k);
    }
    var back := UpperKeys(decoded);
    forall u | u in back ensures u in ns {
      var j :| j in decoded && Upper(j) == u;
      var k :| k in ns && Lower(k) == j && Upper(j) == k;
    }
    forall k | k in ns && SurvivesRoundTrip(ns[k]) ensures k in back && back[k] == ns[k] {
      UpperLower(k);
      assert sec[Lower(k)] == EncodeOption(ns[k]);
      RoundTrip(ns[k]);
      assert decoded[Lower(k)] == ns[k];
    }
  }

  // ---------------------------------------------------------------------
  // The three NamedTuples
  // ---------------------------------------------------------------------

  /** A NamedTuple class: its field names and the defaults of the fields that have one. */
  datatype Schema = Schema(fields: set<string>, defaults: Namespace)

  /** CWConfig's defaults; `title` has none. */
  const WindowDefaults: Namespace := map[
    "url" := NoneValue, "html" := NoneValue, "js_api" := NoneValue,
    "width" := Int(800), "height" := Int(600), "x" := NoneValue, "y" := NoneValue,
    "resizable" := Bool(true), "fullscreen" := Bool(false), "hidden" := Bool(false),
    "frameless" := Bool(false), "easy_drag" := Bool(true), "minimized" := Bool(false),
    "on_top" := Bool(false), "confirm_close" := Bool(false), "background_color" := Str("#FFFFFF"),
    "transparent" := Bool(false), "text_select" := Bool(false), "zoomable" := Bool(false),
    "draggable" := Bool(false), "server" := Default, "server_args" := Default,
    "localization" := NoneValue]

  /** StartConfig's defaults. */
  const StartDefaults: Namespace := map[
    "func" := NoneValue, "args" := NoneValue, "localization" := NoneValue, "gui" := NoneValue,
    "debug" := Bool(false), "http_server" := Bool(false), "http_port" := Bool(false),
    "user_agent" := NoneValue, "private_mode" := Bool(true), "storage_path" := NoneValue,
    "menu" := Default, "server" := Default, "ssl" := Bool(false), "server_args" := Default]

  /** WebviewSetting's defaults. */
  const WebviewDefaults: Namespace := map[
    "ALLOW_DOWNLOADS" := Bool(false), "ALLOW_FILE_URLS" := Bool(true),
    "ALLOW_EXTERNAL_LINKS_IN_BROWSER" := Bool(true), "OPEN_DEVTOOL_IN_DEBUG" := Bool(true)]

  const WindowConfig: Schema := Schema(WindowDefaults.Keys + {"title"}, WindowDefaults)
  const StartConfig: Schema := Schema(StartDefaults.Keys, StartDefaults)
  const WebviewSetting: Schema := Schema(WebviewDefaults.Keys, WebviewDefaults)

  datatype ProfileError =
    | IniFailure(error: IniError)
    | TypeError   // a NamedTuple called with an unknown keyword or without a required field

  /** Calling a NamedTuple class with keyword arguments. */
  function Instantiate(schema: Schema, kwargs: Namespace): (r: Result<Namespace, ProfileError>)
    requires schema.defaults.Keys <= schema.fields
    ensures r.Success? <==> kwargs.Keys <= schema.fields && schema.fields - schema.defaults.Keys <= kwargs.Keys
    ensures r.Failure? ==> r.error == TypeError
    ensures r.Success? ==> r.value.Keys == schema.fields
    ensures r.Success? ==> forall k :: k in schema.fields ==>
      r.value[k] == if k in kwargs then kwargs[k] else schema.defaults[k]
  {
    if kwargs.Keys <= schema.fields && schema.fields - schema.defaults.Keys <= kwargs.Keys then
      Success(schema.defaults + kwargs)
    else
      Failure(TypeError)
  }

  /** Window option names are lower-case. */
  lemma WindowNamesLowerCase()
    ensures forall k :: k in WindowConfig.fields ==> IsLowerCase(k)
  {
    WindowNamesLowerCasePart1();
    WindowNamesLowerCasePart2();
    WindowNamesLowerCasePart3();
    forall k | k in WindowConfig.fields
      ensures k in {"url", "html", "js_api", "width", "height", "x", "y", "resizable", "fullscreen", "hidden", "frameless"}
        || k in {"easy_drag", "minimized", "on_top", "confirm_close", "background_color", "transparent"}
        || k in {"text_select", "zoomable", "draggable", "server", "server_args", "localization", "title"}
    {
    }
  }

  /** A few of the names at a time, each checked character by character. */
  lemma WindowNamesLowerCasePart1()
    ensures forall k :: k in {"url", "html", "js_api", "width", "height", "x", "y", "resizable", "fullscreen", "hidden", "frameless"} ==> IsLowerCase(k)
  {
  }

  /** A few of the names at a time, each checked character by character. */
  lemma WindowNamesLowerCasePart2()
    ensures forall k :: k in {"easy_drag", "minimized", "on_top", "confirm_close", "background_color", "transparent"} ==> IsLowerCase(k)
  {
  }

  /** A few of the names at a time, each checked character by character. */
  lemma WindowNamesLowerCasePart3()
    ensures forall k :: k in {"text_select", "zoomable", "draggable", "server", "server_args", "localization", "title"} ==> IsLowerCase(k)
  {
  }

  /** Start option names are lower-case. */
  lemma StartNamesLowerCase()
    ensures forall k :: k in StartConfig.fields ==> IsLowerCase(k)
  {
    StartNamesLowerCasePart1();
    StartNamesLowerCasePart2();
    forall k | k in StartConfig.fields
      ensures k in {"func", "args", "localization", "gui", "debug", "http_server", "http_port", "user_agent"}
        || k in {"private_mode", "storage_path", "menu", "server", "ssl", "server_args"}
    {
    }
  }

  /** A few of the names at a time, each checked character by character. */
  lemma StartNamesLowerCasePart1()
    ensures forall k :: k in {"func", "args", "localization", "gui", "debug", "http_server", "http_port", "user_agent"} ==> IsLowerCase(k)
  {
  }

  /** A few of the names at a time, each checked character by character. */
  lemma StartNamesLowerCasePart2()
    ensures forall k :: k in {"private_mode", "storage_path", "menu", "server", "ssl", "server_args"} ==> IsLowerCase(k)
  {
  }

  /** Webview setting names are upper-case. */
  lemma WebviewNamesUpperCase()
    ensures forall k :: k in WebviewSetting.fields ==> IsUpperCase(k)
  {
    WebviewNamesUpperCasePart1();
    WebviewNamesUpperCasePart2();
    forall k | k in WebviewSetting.fields
      ensures k in {"ALLOW_DOWNLOADS", "ALLOW_FILE_URLS", "ALLOW_EXTERNAL_LINKS_IN_BROWSER"}
        || k in {"OPEN_DEVTOOL_IN_DEBUG"}
    {
    }
  }

  /** A few of the names at a time, each checked character by character. */
  lemma WebviewNamesUpperCasePart1()
    ensures forall k :: k in {"ALLOW_DOWNLOADS", "ALLOW_FILE_URLS", "ALLOW_EXTERNAL_LINKS_IN_BROWSER"} ==> IsUpperCase(k)
  {
  }

  /** A few of the names at a time, each checked character by character. */
  lemma WebviewNamesUpperCasePart2()
    ensures forall k :: k in {"OPEN_DEVTOOL_IN_DEBUG"} ==> IsUpperCase(k)
  {
  }

  // ---------------------------------------------------------------------
  // What save writes
  // ---------------------------------------------------------------------

  /** The dictionary after `for i in keys: del ns[i]`. */
  function WithoutKeys(ns: Namespace, keys: seq<string>): Namespace {
    map k | k in ns && k !in keys :: ns[k]
  }

  /** `for i in keys: del ns[i]`; each key must be present (KeyError otherwise) and is deleted once. */
  method DeleteEach(ns: Namespace, keys: seq<string>) returns (r: Namespace)
    requires forall i :: 0 <= i < |keys| ==> keys[i] in ns
    requires forall i, j :: 0 <= i < j < |keys| ==> keys[i] != keys[j]
    ensures r.Keys == ns.Keys - set k | k in keys
    ensures r == WithoutKeys(ns, keys)
  {
    r := ns;
    for i := 0 to |keys|
      invariant r == WithoutKeys(ns, keys[..i])
    {
      assert keys[..i + 1] == keys[..i] + [keys[i]];
      r := Del(r, keys[i]);
    }
    assert keys[..|keys|] == keys;
  }

  /** The keys save deletes are fields of their NamedTuples, each listed once. */
  lemma DropKeysAreFields()
    ensures forall i :: 0 <= i < |WindowDropKeys| ==> WindowDropKeys[i] in WindowConfig.fields
    ensures forall i, j :: 0 <= i < j < |WindowDropKeys| ==> WindowDropKeys[i] != WindowDropKeys[j]
    ensures forall i :: 0 <= i < |StartDropKeys| ==> StartDropKeys[i] in StartConfig.fields
    ensures forall i, j :: 0 <= i < j < |StartDropKeys| ==> StartDropKeys[i] != StartDropKeys[j]
  {
  }

  /** The window options save writes: all but `_DELOBJS_CW`, sentinels written as "py:default". */
  function WindowWritten(data: Namespace): Namespace {
    DefaultsReplaced(WithoutKeys(data, WindowDropKeys), Str(DefaultKey))
  }

  /** The start options save writes: all but `_DELOBJS_S`, sentinels written as "py:default". */
  function StartWritten(start: Namespace): Namespace {
    DefaultsReplaced(WithoutKeys(start, StartDropKeys), Str(DefaultKey))
  }

  /** The webview settings save writes: all of them, sentinels written as "py:default". */
  function CommonWritten(common: Namespace): Namespace {
    DefaultsReplaced(common, Str(DefaultKey))
  }

  lemma WrittenWellFormed(data: Namespace, start: Namespace, common: Namespace)
    requires data.Keys == WindowConfig.fields && start.Keys == StartConfig.fields && common.Keys == WebviewSetting.fields
    ensures NoDefault(WindowWritten(data)) && CaseDistinct(WindowWritten(data))
    ensures NoDefault(StartWritten(start)) && CaseDistinct(StartWritten(start))
    ensures NoDefault(CommonWritten(common)) && CaseDistinct(CommonWritten(common))
  {
    WindowWrittenWellFormed(data);
    StartWrittenWellFormed(start);
    CommonWrittenWellFormed(common);
  }

  lemma WindowWrittenWellFormed(data: Namespace)
    requires data.Keys == WindowConfig.fields
    ensures NoDefault(WindowWritten(data)) && CaseDistinct(WindowWritten(data))
  {
    WindowNamesLowerCase();
    LowerCaseDistinct(WindowWritten(data));
  }

  lemma StartWrittenWellFormed(start: Namespace)
    requires start.Keys == StartConfig.fields
    ensures NoDefault(StartWritten(start)) && CaseDistinct(StartWritten(start))
  {
    StartNamesLowerCase();
    LowerCaseDistinct(StartWritten(start));
  }

  lemma CommonWrittenWellFormed(common: Namespace)
    requires common.Keys == WebviewSetting.fields
    ensures NoDefault(CommonWritten(common)) && CaseDistinct(CommonWritten(common))
  {
    WebviewNamesUpperCase();
    UpperCaseDistinct(CommonWritten(common));
  }

  /**
   * The options save writes for a dictionary with lower-case keys: one per
   * key not in the drop list, the sentinel written as "py:default" and every
   * other value as `_dset` encodes it.
   */
  lemma {:induction false} WrittenSectionContents(ns: Namespace, drop: seq<string>)
    requires forall k :: k in ns ==> IsLowerCase(k)
    ensures NoDefault(DefaultsReplaced(WithoutKeys(ns, drop), Str(DefaultKey)))
    ensures CaseDistinct(DefaultsReplaced(WithoutKeys(ns, drop), Str(DefaultKey)))
    ensures var sec := EncodeSection(DefaultsReplaced(WithoutKeys(ns, drop), Str(DefaultKey)));
      && (forall j :: j in sec ==> j in ns && j !in drop)
      && (forall k :: k in ns && k !in drop ==> k in sec && sec[k] == if ns[k] == Default then DefaultKey else EncodeOption(ns[k]))
  {
    var written := DefaultsReplaced(WithoutKeys(ns, drop), Str(DefaultKey));
    WrittenKeys(ns, drop);
    forall k | k in ns && k !in drop
      ensures k in EncodeSection(written)
      ensures EncodeSection(written)[k] == if ns[k] == Default then DefaultKey else EncodeOption(ns[k])
    {
      WrittenOption(ns, drop, k);
    }
    WrittenSectionFrom(ns, drop);
  }

  /** Save writes no option other than the kept keys. */
  lemma WrittenSectionFrom(ns: Namespace, drop: seq<string>)
    requires forall k :: k in ns ==> IsLowerCase(k)
    ensures NoDefault(DefaultsReplaced(WithoutKeys(ns, drop), Str(DefaultKey)))
    ensures CaseDistinct(DefaultsReplaced(WithoutKeys(ns, drop), Str(DefaultKey)))
    ensures forall j :: j in EncodeSection(DefaultsReplaced(WithoutKeys(ns, drop), Str(DefaultKey))) ==> j in ns && j !in drop
  {
    var written := DefaultsReplaced(WithoutKeys(ns, drop), Str(DefaultKey));
    WrittenKeys(ns, drop);
    forall j | j in EncodeSection(written) ensures j in ns && j !in drop {
      EncodedKeyOrigin(written, j);
      LowerKeyIn(written, j);
    }
  }

  /** What save passes to `_dset`: no sentinel left, lower-case keys, and only keys outside the drop list. */
  lemma WrittenKeys(ns: Namespace, drop: seq<string>)
    requires forall k :: k in ns ==> IsLowerCase(k)
    ensures var written := DefaultsReplaced(WithoutKeys(ns, drop), Str(DefaultKey));
      && NoDefault(written)
      && CaseDistinct(written)
      && (forall j :: j in written ==> j in ns && j !in drop && IsLowerCase(j))
  {
    var written := DefaultsReplaced(WithoutKeys(ns, drop), Str(DefaultKey));
    assert forall j :: j in written ==> j in ns && j !in drop;
    LowerCaseDistinct(written);
  }

  /** The option written for one kept key. */
  lemma WrittenOption(ns: Namespace, drop: seq<string>, k: string)
    requires forall k :: k in ns ==> IsLowerCase(k)
    requires k in ns && k !in drop
    ensures NoDefault(DefaultsReplaced(WithoutKeys(ns, drop), Str(DefaultKey)))
    ensures CaseDistinct(DefaultsReplaced(WithoutKeys(ns, drop), Str(DefaultKey)))
    ensures var sec := EncodeSection(DefaultsReplaced(WithoutKeys(ns, drop), Str(DefaultKey)));
      k in sec && sec[k] == if ns[k] == Default then DefaultKey else EncodeOption(ns[k])
  {
    var written := DefaultsReplaced(WithoutKeys(ns, drop), Str(DefaultKey));
    WrittenKeys(ns, drop);
    WrittenEntry(ns, drop, k);
    EncodedEntry(written, k);
    if ns[k] == Default {
      SentinelEncoding();
    }
  }

  /** With lower-case keys, each key is written under its own name. */
  lemma EncodedEntry(ns: Namespace, k: string)
    requires NoDefault(ns) && CaseDistinct(ns) && k in ns && IsLowerCase(k)
    ensures k in EncodeSection(ns) && EncodeSection(ns)[k] == EncodeOption(ns[k])
  {
    LowerFixes(k);
  }

  /** A kept key holds its value, the sentinel replaced. */
  lemma WrittenEntry(ns: Namespace, drop: seq<string>, k: string)
    requires k in ns && k !in drop
    ensures var written := DefaultsReplaced(WithoutKeys(ns, drop), Str(DefaultKey));
      k in written && written[k] == if ns[k] == Default then Str(DefaultKey) else ns[k]
  {
    assert k in WithoutKeys(ns, drop);
  }

  /** The replacement of the sentinel is written as it is. */
  lemma SentinelEncoding()
    ensures EncodeOption(Str(DefaultKey)) == DefaultKey
  {
    assert |DefaultKey| != |"no"|;
  }

  /** Every option written comes from a key of the namespace. */
  lemma EncodedKeyOrigin(ns: Namespace, j: string)
    requires NoDefault(ns) && CaseDistinct(ns) && j in EncodeSection(ns)
    ensures exists k :: k in ns && Lower(k) == j
  {
  }

  /** A name that lower-cases a lower-case key is that key. */
  lemma LowerKeyIn(ns: Namespace, j: string)
    requires forall k :: k in ns ==> IsLowerCase(k)
    requires exists k :: k in ns && Lower(k) == j
    ensures j in ns
  {
    var k :| k in ns && Lower(k) == j;
    LowerFixes(k);
  }

  /** The three add_section calls save makes for a profile the file does not have yet. */
  function AddProfileSections(st: IniState, name: string): Result<IniState, IniError> {
    var withName :- AddSectionTo(st, name);
    var withStart :- AddSectionTo(withName, name + ".start");
    AddSectionTo(withStart, name + ".common")
  }

  /** The sections save makes sure of: the profile's three sections are added unless its own exists. */
  function Prepared(st: IniState, name: string): Result<IniState, IniError> {
    if name in st.sections then Success(st) else AddProfileSections(st, name)
  }

  /**
   * The file after the add_section calls of save that ran: a failing call
   * changes nothing and raises, so the sections added before it stay.
   */
  function PreparedReached(st: IniState, name: string): (r: IniState)
    ensures Prepared(st, name).Success? ==> r == Prepared(st, name).value
    ensures r.defaults == st.defaults
    ensures forall s :: s in st.sections ==> s in r.sections && r.sections[s] == st.sections[s]
    ensures forall s :: s in r.sections && s !in st.sections ==> s in {name, name + ".start", name + ".common"} && r.sections[s] == map[]
  {
    if name in st.sections then st
    else match AddSectionTo(st, name)
      case Failure(_) => st
      case Success(withName) =>
        match AddSectionTo(withName, name + ".start")
        case Failure(_) => withName
        case Success(withStart) =>
          match AddSectionTo(withStart, name + ".common")
          case Failure(_) => withStart
          case Success(withCommon) => withCommon
  }

  /** The three `_dset` calls of save, in order. */
  function WrittenSections(st: IniState, name: string, window: Namespace, start: Namespace, common: Namespace): Result<IniState, IniError>
    requires NoDefault(window) && CaseDistinct(window)
    requires NoDefault(start) && CaseDistinct(start)
    requires NoDefault(common) && CaseDistinct(common)
  {
    var withWindow :- WithOptions(st, name, window);
    var withStart :- WithOptions(withWindow, name + ".start", start);
    WithOptions(withStart, name + ".common", common)
  }

  /**
   * The file after the `_dset` calls of save that ran: a failing call
   * changes nothing and raises, so the sections written before it stay.
   */
  function WrittenReached(st: IniState, name: string, window: Namespace, start: Namespace, common: Namespace): (r: IniState)
    requires NoDefault(window) && CaseDistinct(window)
    requires NoDefault(start) && CaseDistinct(start)
    requires NoDefault(common) && CaseDistinct(common)
    ensures WrittenSections(st, name, window, start, common).Success? ==> r == WrittenSections(st, name, window, start, common).value
    ensures r.sections.Keys == st.sections.Keys
    ensures forall s :: s in st.sections && s !in {name, name + ".start", name + ".common"} ==> r.sections[s] == st.sections[s]
  {
    match WithOptions(st, name, window)
    case Failure(_) => st
    case Success(withWindow) =>
      WithOptionsKeeps(st, name, window);
      match WithOptions(withWindow, name + ".start", start)
      case Failure(_) => withWindow
      case Success(withStart) =>
        WithOptionsKeeps(withWindow, name + ".start", start);
        match WithOptions(withStart, name + ".common", common)
        case Failure(_) => withStart
        case Success(withCommon) =>
          WithOptionsKeeps(withStart, name + ".common", common);
          withCommon
  }

  /** `_dset` into one section adds no section and leaves the other sections alone. */
  lemma WithOptionsKeeps(st: IniState, section: string, ns: Namespace)
    requires NoDefault(ns) && CaseDistinct(ns)
    requires WithOptions(st, section, ns).Success?
    ensures WithOptions(st, section, ns).value.sections.Keys == st.sections.Keys
    ensures forall s :: s in st.sections && s != section ==> WithOptions(st, section, ns).value.sections[s] == st.sections[s]
  {
  }

  /** The file after save: sections `name`, `name.start` and `name.common`, each written by `_dset`. */
  function Saved(st: IniState, name: string, window: Namespace, start: Namespace, common: Namespace): Result<IniState, IniError>
    requires NoDefault(window) && CaseDistinct(window)
    requires NoDefault(start) && CaseDistinct(start)
    requires NoDefault(common) && CaseDistinct(common)
  {
    var prepared :- Prepared(st, name);
    WrittenSections(prepared, name, window, start, common)
  }

  /** The file save leaves, whether it fails or not. */
  function SaveReached(st: IniState, name: string, window: Namespace, start: Namespace, common: Namespace): (r: IniState)
    requires NoDefault(window) && CaseDistinct(window)
    requires NoDefault(start) && CaseDistinct(start)
    requires NoDefault(common) && CaseDistinct(common)
    ensures Saved(st, name, window, start, common).Success? ==> r == Saved(st, name, window, start, common).value
    ensures Prepared(st, name).Failure? ==> r == PreparedReached(st, name)
    ensures r.sections.Keys <= st.sections.Keys + {name, name + ".start", name + ".common"}
    ensures forall s :: s in st.sections && s !in {name, name + ".start", name + ".common"} ==> s in r.sections && r.sections[s] == st.sections[s]
  {
    match Prepared(st, name)
    case Failure(_) => PreparedReached(st, name)
    case Success(prepared) => WrittenReached(prepared, name, window, start, common)
  }

  /**
   * Saving a new profile into a file without DEFAULT options: the three
   * sections hold exactly the options `_dset` encoded, which is what
   * `profile[section].items()` hands to `_dump` on the next load.
   */
  lemma SaveThenItems(st: IniState, name: string, window: Namespace, start: Namespace, common: Namespace)
    returns (saved: IniState)
    requires NoDefault(window) && CaseDistinct(window)
    requires NoDefault(start) && CaseDistinct(start)
    requires NoDefault(common) && CaseDistinct(common)
    requires st.defaults == map[] && name != "" && name != DefaultSection
    requires name !in st.sections && name + ".start" !in st.sections && name + ".common" !in st.sections
    ensures Saved(st, name, window, start, common) == Success(saved)
    ensures Items(saved, name) == Some(EncodeSection(window))
    ensures Items(saved, name + ".start") == Some(EncodeSection(start))
    ensures Items(saved, name + ".common") == Some(EncodeSection(common))
  {
    var startName := name + ".start";
    var commonName := name + ".common";
    ProfileSectionNames(name);
    var prepared := PrepareNew(st, name);
    var st1, st2, st3 := WriteThreeSections(prepared, name, startName, commonName, window, start, common);
    assert Saved(st, name, window, start, common) == Success(st3) by {
      assert WrittenSections(prepared, name, window, start, common) == Success(st3);
    }
    ThreeLookups(prepared.sections, name, startName, commonName, EncodeSection(window), EncodeSection(start), EncodeSection(common));
    EmptyDefaults(EncodeSection(window));
    EmptyDefaults(EncodeSection(start));
    EmptyDefaults(EncodeSection(common));
    saved := st3;
  }

  /** Three `_dset` calls into three distinct empty sections. */
  lemma WriteThreeSections(st: IniState, a: string, b: string, c: string, window: Namespace, start: Namespace, common: Namespace)
    returns (st1: IniState, st2: IniState, st3: IniState)
    requires NoDefault(window) && CaseDistinct(window)
    requires NoDefault(start) && CaseDistinct(start)
    requires NoDefault(common) && CaseDistinct(common)
    requires a != b && a != c && b != c
    requires !TargetsDefaults(a) && !TargetsDefaults(b) && !TargetsDefaults(c)
    requires a in st.sections && b in st.sections && c in st.sections
    requires st.sections[a] == map[] && st.sections[b] == map[] && st.sections[c] == map[]
    ensures WithOptions(st, a, window) == Success(st1)
    ensures WithOptions(st1, b, start) == Success(st2)
    ensures WithOptions(st2, c, common) == Success(st3)
    ensures st3 == st.(sections := st.sections[a := EncodeSection(window)][b := EncodeSection(start)][c := EncodeSection(common)])
  {
    st1 := WriteEmptySection(st, a, window);
    st2 := WriteEmptySection(st1, b, start);
    st3 := WriteEmptySection(st2, c, common);
  }

  lemma ThreeLookups(m: map<string, Section>, a: string, b: string, c: string, x: Section, y: Section, z: Section)
    requires a != b && a != c && b != c
    ensures a in m[a := x][b := y][c := z] && b in m[a := x][b := y][c := z] && c in m[a := x][b := y][c := z]
    ensures m[a := x][b := y][c := z][a] == x
    ensures m[a := x][b := y][c := z][b] == y
    ensures m[a := x][b := y][c := z][c] == z
  {
  }

  lemma EmptyDefaults(options: Section)
    ensures map[] + options == options
  {
  }

  /** The three section names of a profile are distinct, and none is DEFAULT. */
  lemma ProfileSectionNames(name: string)
    ensures name + ".start" != name && name + ".common" != name
    ensures name + ".start" != name + ".common"
    ensures name + ".start" != DefaultSection && name + ".common" != DefaultSection
  {
    var startName := name + ".start";
    var commonName := name + ".common";
    assert |startName| > |name| && |commonName| > |name|;
    assert startName[|name| + 1] == 's' && commonName[|name| + 1] == 'c';
    assert startName[|name|] == '.' && commonName[|name|] == '.';
    assert forall i :: 0 <= i < |DefaultSection| ==> DefaultSection[i] != '.';
  }

  /** For a profile the file does not hold yet, save adds its three sections empty. */
  lemma PrepareNew(st: IniState, name: string) returns (prepared: IniState)
    requires name != DefaultSection
    requires name !in st.sections && name + ".start" !in st.sections && name + ".common" !in st.sections
    ensures Prepared(st, name) == Success(prepared)
    ensures prepared.defaults == st.defaults
    ensures prepared.sections == st.sections[name := map[]][name + ".start" := map[]][name + ".common" := map[]]
    ensures name in prepared.sections && prepared.sections[name] == map[]
    ensures name + ".start" in prepared.sections && prepared.sections[name + ".start"] == map[]
    ensures name + ".common" in prepared.sections && prepared.sections[name + ".common"] == map[]
  {
    ProfileSectionNames(name);
    var empty: Section := map[];
    var p1 := st.(sections := st.sections[name := empty]);
    var p2 := p1.(sections := p1.sections[name + ".start" := empty]);
    prepared := p2.(sections := p2.sections[name + ".common" := empty]);
    assert AddSectionTo(st, name) == Success(p1);
    assert AddSectionTo(p1, name + ".start") == Success(p2);
    assert AddSectionTo(p2, name + ".common") == Success(prepared);
    ThreeLookups(st.sections, name, name + ".start", name + ".common", empty, empty, empty);
  }

  lemma EncodeEmpty(ns: Namespace)
    requires NoDefault(ns) && CaseDistinct(ns) && ns == map[]
    ensures EncodeSection(ns) == map[]
  {
    var e := EncodeSection(ns);
    assert forall j :: j in e ==> exists k :: k in ns && Lower(k) == j;
  }

  /** `_dset` into an empty section (not the DEFAULT one) leaves exactly the encoded options there. */
  lemma WriteEmptySection(st: IniState, section: string, ns: Namespace) returns (st': IniState)
    requires NoDefault(ns) && CaseDistinct(ns)
    requires !TargetsDefaults(section) && section in st.sections && st.sections[section] == map[]
    ensures WithOptions(st, section, ns) == Success(st')
    ensures st' == st.(sections := st.sections[section := EncodeSection(ns)])
  {
    var encoded := EncodeSection(ns);
    st' := st.(sections := st.sections[section := encoded]);
    if ns == map[] {
      EncodeEmpty(ns);
      EmptyUpdate(st.sections, section);
    } else {
      EmptyDefaults(encoded);
      assert Put(st, section, map[] + encoded) == st';
    }
  }

  /** Writing no options into an empty section changes nothing. */
  lemma EmptyUpdate(sections: map<string, Section>, section: string)
    requires section in sections && sections[section] == map[]
    ensures sections[section := map[]] == sections
  {
  }

  /** The section-adding part of save. */
  method PrepareSections(profile: ConfigFile, name: string) returns (err: Option<IniError>)
    requires profile.Valid()
    modifies profile
    ensures profile.Valid()
    ensures Prepared(old(profile.State()), name).Success? ==> err.None? && profile.State() == Prepared(old(profile.State()), name).value
    ensures Prepared(old(profile.State()), name).Failure? ==> err == Some(Prepared(old(profile.State()), name).error)
    ensures profile.State() == PreparedReached(old(profile.State()), name)
  {
    err := None;
    if !profile.HasSection(name) {
      err := profile.AddSection(name);
      if err.Some? {
        return;
      }
      err := profile.AddSection(name + ".start");
      if err.Some? {
        return;
      }
      err := profile.AddSection(name + ".common");
    }
  }

  /** The writing part of save: `_dset` into `name`, `name.start` and `name.common`. */
  method WriteSections(profile: ConfigFile, name: string, window: Namespace, start: Namespace, common: Namespace) returns (err: Option<IniError>)
    requires profile.Valid()
    requires NoDefault(window) && CaseDistinct(window)
    requires NoDefault(start) && CaseDistinct(start)
    requires NoDefault(common) && CaseDistinct(common)
    modifies profile
    ensures profile.Valid()
    ensures var written := WrittenSections(old(profile.State()), name, window, start, common);
      && (written.Success? ==> err.None? && profile.State() == written.value)
      && (written.Failure? ==> err == Some(written.error))
    ensures profile.State() == WrittenReached(old(profile.State()), name, window, start, common)
  {
    err := Dset(profile, name, window);
    if err.Some? {
      return;
    }
    err := Dset(profile, name + ".start", start);
    if err.Some? {
      return;
    }
    err := Dset(profile, name + ".common", common);
  }

  // ---------------------------------------------------------------------
  // What load reads
  // ---------------------------------------------------------------------

  datatype Loaded = Loaded(window: Namespace, start: Namespace, common: Namespace)

  lemma UpperInjectiveOn(ns: Namespace)
    requires forall k :: k in ns ==> IsLowerCase(k)
    ensures forall a, b :: a in ns && b in ns && Upper(a) == Upper(b) ==> a == b
  {
    forall a, b | a in ns && b in ns && Upper(a) == Upper(b) ensures a == b {
      UpperInjective(a, b);
    }
  }

  /** `{key.upper(): value for key, value in ns.items()}`; no two lower-case keys collide. */
  function UpperKeys(ns: Namespace): (r: Namespace)
    requires forall k :: k in ns ==> IsLowerCase(k)
    ensures forall k :: k in ns ==> Upper(k) in r && r[Upper(k)] == ns[k]
    ensures forall u :: u in r ==> exists k :: k in ns && Upper(k) == u
  {
    UpperInjectiveOn(ns);
    map k | k in ns :: Upper(k) := ns[k]
  }

  function ItemsOf(st: IniState, section: string): (r: Result<Section, ProfileError>)
    requires WellFormedIni(st)
    ensures r.Success? ==> forall k :: k in r.value ==> IsLowerCase(k)
  {
    match Items(st, section)
    case None => Failure(IniFailure(MissingSection(section)))
    case Some(items) => Success(items)
  }

  /** `_dump` of a section of a well-formed file gives lower-case keys. */
  lemma DecodedItemsLowerCase(st: IniState, section: string)
    requires WellFormedIni(st) && Items(st, section).Some?
    ensures forall k :: k in DecodeSection(Items(st, section).value) ==> IsLowerCase(k)
  {
    var items := ItemsOf(st, section);
  }

  /** The three NamedTuples load builds from a file that exists. */
  function LoadedConfig(st: IniState, name: string): Result<Loaded, ProfileError>
    requires WellFormedIni(st)
  {
    var windowItems :- ItemsOf(st, name);
    var window :- Instantiate(WindowConfig, DecodeSection(windowItems));
    var startItems :- ItemsOf(st, name + ".start");
    var start :- Instantiate(StartConfig, DecodeSection(startItems));
    var commonItems :- ItemsOf(st, name + ".common");
    var common :- Instantiate(WebviewSetting, UpperKeys(DecodeSection(commonItems)));
    Success(Loaded(window, start, common))
  }

  /** The window options of a new profile: `CWConfig(name or title, url=url)`. */
  function InitialWindow(name: string, url: Value, title: Value): Namespace {
    WindowDefaults["title" := if name != "" then Str(name) else title]["url" := url]
  }

  /** The start options of a new profile: `StartConfig(private_mode=False, storage_path=str(dir))`. */
  function InitialStart(dir: string): Namespace {
    StartDefaults["private_mode" := Bool(false)]["storage_path" := Str(dir)]
  }

  /** What `Profile.load` returns: the fresh profile's options when there is no file, else those read from it. */
  function LoadedProfile(name: string, dir: string, stored: Option<IniState>): Result<Loaded, ProfileError>
    requires stored.Some? ==> WellFormedIni(stored.value)
  {
    match stored
    case None => Success(Loaded(InitialWindow(name, NoneValue, NoneValue), InitialStart(dir), WebviewDefaults))
    case Some(st) => LoadedConfig(st, name)
  }

  // ---------------------------------------------------------------------
  // The Profile object
  // ---------------------------------------------------------------------

  /**
   * A profile: its name, its directory (PROFILE_DIR / name), its three
   * option dictionaries and the ConfigParser it saves through.
   */
  class Profile {
    const name: string
    const dir: string
    var data: Namespace
    var startData: Namespace
    var commonConfig: Namespace
    var profile: ConfigFile

    ghost predicate Valid()
      reads this, profile
    {
      && data.Keys == WindowConfig.fields
      && startData.Keys == StartConfig.fields
      && commonConfig.Keys == WebviewSetting.fields
      && profile.Valid()
    }

    /** `Profile(name, url, title)`; the directory is created on disk, which is not modelled. */
    constructor (name: string, url: Value, title: Value, dir: string)
      ensures Valid() && this.name == name && this.dir == dir
      ensures data == InitialWindow(name, url, title)
      ensures startData == InitialStart(dir)
      ensures commonConfig == WebviewDefaults
      ensures fresh(profile) && profile.State() == IniState(map[], map[])
    {
      this.name := name;
      this.dir := dir;
      data := InitialWindow(name, url, title);
      startData := InitialStart(dir);
      commonConfig := WebviewDefaults;
      profile := new ConfigFile();
    }

    /**
     * `save`: drops the window-only and start-only keys, writes sentinels as
     * "py:default", adds the three sections if the profile's own is missing,
     * and writes each dictionary into its section. The file text and the
     * launcher script are written to disk, which is not modelled.
     */
    method Save() returns (err: Option<IniError>)
      requires Valid()
      modifies profile
      ensures Valid()
      ensures WrittenReady(data, startData, commonConfig)
      ensures var saved := Saved(old(profile.State()), name, WindowWritten(data), StartWritten(startData), CommonWritten(commonConfig));
        && (saved.Success? ==> err.None? && profile.State() == saved.value)
        && (saved.Failure? ==> err == Some(saved.error))
      ensures profile.State() == SaveReached(old(profile.State()), name, WindowWritten(data), StartWritten(startData), CommonWritten(commonConfig))
    {
      WrittenWellFormed(data, startData, commonConfig);
      DropKeysAreFields();
      var parsedData := DeleteEach(data, WindowDropKeys);
      var parsedStart := DeleteEach(startData, StartDropKeys);
      var window := ReplaceDefault(parsedData, Str(DefaultKey));
      var start := ReplaceDefault(parsedStart, Str(DefaultKey));
      var common := ReplaceDefault(commonConfig, Str(DefaultKey));
      err := PrepareSections(profile, name);
      if err.Some? {
        return;
      }
      err := WriteSections(profile, name, window, start, common);
    }

    /**
     * `Profile.load`: a fresh profile, whose options are replaced by those read
     * from the file when it exists. `stored` is ConfigParser's parse of the
     * file, None when there is no file.
     */
    static method Load(name: string, dir: string, stored: Option<IniState>) returns (r: Result<Profile, ProfileError>)
      requires stored.Some? ==> WellFormedIni(stored.value)
      ensures r.Success? <==> LoadedProfile(name, dir, stored).Success?
      ensures r.Failure? ==> r.error == LoadedProfile(name, dir, stored).error
      ensures r.Success? ==>
        var loaded := LoadedProfile(name, dir, stored).value;
        && fresh(r.value) && fresh(r.value.profile) && r.value.Valid()
        && r.value.name == name && r.value.dir == dir
        && r.value.data == loaded.window && r.value.startData == loaded.start
        && r.value.commonConfig == loaded.common
        && r.value.profile.State() == (if stored.Some? then stored.value else IniState(map[], map[]))
    {
      var p := new Profile(name, NoneValue, NoneValue, dir);
      if stored.Some? {
        r := LoadFile(p, name, stored.value);
      } else {
        r := Success(p);
      }
    }

    /** The part of load that runs when the file exists: the options of `p` are replaced by those read. */
    static method LoadFile(p: Profile, name: string, st: IniState) returns (r: Result<Profile, ProfileError>)
      requires WellFormedIni(st)
      modifies p
      ensures r.Success? <==> LoadedConfig(st, name).Success?
      ensures r.Failure? ==> r.error == LoadedConfig(st, name).error
      ensures r.Success? ==>
        && r.value == p && fresh(p.profile) && p.profile.State() == st && p.Valid()
        && p.data == LoadedConfig(st, name).value.window && p.startData == LoadedConfig(st, name).value.start
        && p.commonConfig == LoadedConfig(st, name).value.common
    {
      var file := new ConfigFile.Read(st);
      var loaded := ReadProfileSections(file, name);
      if loaded.Failure? {
        return Failure(loaded.error);
      }
      p.Replace(loaded.value, file);
      r := Success(p);
    }

    /** The assignments at the end of load: the options read from the file and the parser that read them. */
    method Replace(loaded: Loaded, file: ConfigFile)
      requires loaded.window.Keys == WindowConfig.fields && loaded.start.Keys == StartConfig.fields
      requires loaded.common.Keys == WebviewSetting.fields && file.Valid()
      modifies this
      ensures Valid() && profile == file
      ensures data == loaded.window && startData == loaded.start && commonConfig == loaded.common
    {
      data := loaded.window;
      startData := loaded.start;
      commonConfig := loaded.common;
      profile := file;
    }
  }

  /**
   * The reading part of load: `_dump` of the three sections, the common
   * section's keys upper-cased, each passed to its NamedTuple.
   */
  method ReadProfileSections(file: ConfigFile, name: string) returns (r: Result<Loaded, ProfileError>)
    requires file.Valid()
    ensures r == LoadedConfig(file.State(), name)
    ensures r.Success? ==> && r.value.window.Keys == WindowConfig.fields
                           && r.value.start.Keys == StartConfig.fields
                           && r.value.common.Keys == WebviewSetting.fields
  {
    var windowItems := Dump(file, name);
    if windowItems.Failure? {
      return Failure(IniFailure(windowItems.error));
    }
    var window := Instantiate(WindowConfig, windowItems.value);
    if window.Failure? {
      return Failure(window.error);
    }
    var startItems := Dump(file, name + ".start");
    if startItems.Failure? {
      return Failure(IniFailure(startItems.error));
    }
    var start := Instantiate(StartConfig, startItems.value);
    if start.Failure? {
      return Failure(start.error);
    }
    var commonItems := Dump(file, name + ".common");
    if commonItems.Failure? {
      return Failure(IniFailure(commonItems.error));
    }
    DecodedItemsLowerCase(file.State(), name + ".common");
    var common := Instantiate(WebviewSetting, UpperKeys(commonItems.value));
    if common.Failure? {
      return Failure(common.error);
    }
    r := Success(Loaded(window.value, start.value, common.value));
  }

  ghost predicate WrittenReady(data: Namespace, start: Namespace, common: Namespace) {
    && NoDefault(WindowWritten(data)) && CaseDistinct(WindowWritten(data))
    && NoDefault(StartWritten(start)) && CaseDistinct(StartWritten(start))
    && NoDefault(CommonWritten(common)) && CaseDistinct(CommonWritten(common))
  }

  /**
   * `Profile.load_return`: the loaded profile's three dictionaries for the
   * user interface, each through `annihilate_defconst(..., True)`.
   */
  method LoadReturn(name: string, dir: string, stored: Option<IniState>) returns (r: Result<map<string, Namespace>, ProfileError>)
    requires stored.Some? ==> WellFormedIni(stored.value)
    ensures r.Success? <==> LoadedProfile(name, dir, stored).Success?
    ensures r.Failure? ==> r.error == LoadedProfile(name, dir, stored).error
    ensures r.Success? ==>
      var loaded := LoadedProfile(name, dir, stored).value;
      r.value == map["app" := Annihilate(loaded.window, true), "start" := Annihilate(loaded.start, true),
                     "config" := Annihilate(loaded.common, true)]
  {
    var loaded := Profile.Load(name, dir, stored);
    if loaded.Failure? {
      return Failure(loaded.error);
    }
    var self := loaded.value;
    var app := AnnihilateDefconst(self.data, true);
    var start := AnnihilateDefconst(self.startData, true);
    var config := AnnihilateDefconst(self.commonConfig, true);
    r := Success(map["app" := app, "start" := start, "config" := config]);
  }
}
