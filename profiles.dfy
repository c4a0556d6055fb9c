/**
 * Profiles: how a launch profile's options travel between Python values and
 * the text options of its INI file (webapps/profiles.py).
 *
 * A profile holds three option dictionaries: the window options
 * (CWConfig), the start options (StartConfig) and the webview settings
 * (WebviewSetting). Saving writes them, with some keys removed, into three
 * INI sections `name`, `name.start` and `name.common`; loading reads them back.
 */
module Profiles {
  import opened Wrappers
  import opened Decimal
  import opened Text

  /** A Python value held in an option dictionary. */
  datatype Value =
    | Default           // the module's sentinel object `default`
    | NoneValue         // None
    | Bool(b: bool)
    | Int(i: int)
    | Str(s: string)

  /** An option dictionary, as returned by a NamedTuple's _asdict(). */
  type Namespace = map<string, Value>

  /** The options of one INI section: option name to option text. */
  type Section = map<string, string>

  /** `_DELOBJS_CW`: window options that are never saved. */
  const WindowDropKeys: seq<string> := ["js_api", "server", "server_args", "localization"]

  /** `_DELOBJS_S`: start options that are never saved. */
  const StartDropKeys: seq<string> := ["func", "server", "server_args", "menu"]

  /** `_DELOBJS_API`: options hidden from the user interface. */
  const ApiDropKeys: seq<string> := ["html", "http_server", "http_port", "storage_path", "ssl", "args"]

  /** `_STR_DEFKEY`: the text that stands for the sentinel in a saved file. */
  const DefaultKey: string := "py:default"

  predicate NoDefault(ns: Namespace) {
    forall k :: k in ns ==> ns[k] != Default
  }

  /** Python's `del d[k]`, which raises KeyError unless k is present: every use must show it is. */
  function Del(d: Namespace, k: string): (r: Namespace)
    requires k in d
    ensures r.Keys == d.Keys - {k}
    ensures forall j :: j in r ==> r[j] == d[j]
  {
    d - {k}
  }

  // ---------------------------------------------------------------------
  // replace_default and annihilate_defconst
  // ---------------------------------------------------------------------

  /** The dictionary with every sentinel value swapped for `replacement`. */
  function DefaultsReplaced(ns: Namespace, replacement: Value): Namespace {
    map k | k in ns :: if ns[k] == Default then replacement else ns[k]
  }

  /** `replace_default`: a copy with the same keys, in which each sentinel becomes `replacement`. */
  method ReplaceDefault(ns: Namespace, replacement: Value) returns (copied: Namespace)
    ensures copied.Keys == ns.Keys
    ensures forall k :: k in ns && ns[k] == Default ==> copied[k] == replacement
    ensures forall k :: k in ns && ns[k] != Default ==> copied[k] == ns[k]
    ensures copied == DefaultsReplaced(ns, replacement)
  {
    copied := ns;
    var pending := ns.Keys;
    while pending != {}
      invariant pending <= ns.Keys
      invariant copied.Keys == ns.Keys
      invariant forall k :: k in pending ==> copied[k] == ns[k]
      invariant forall k :: k in ns && k !in pending ==> copied[k] == (if ns[k] == Default then replacement else ns[k])
      decreases pending
    {
      var k :| k in pending;
      if copied[k] == Default {
        copied := copied[k := replacement];
      }
      pending := pending - {k};
    }
  }

  /** A value that stands for "use the default": the sentinel itself or its saved text. */
  predicate IsDefaultMarker(v: Value) {
    v == Default || v == Str(DefaultKey)
  }

  /** Whether `annihilate_defconst` removes key k holding v. */
  predicate Annihilated(k: string, v: Value, toApi: bool) {
    IsDefaultMarker(v) || k in WindowDropKeys || k in StartDropKeys || (toApi && k in ApiDropKeys)
  }

  /** The dictionary `annihilate_defconst` returns. */
  function Annihilate(ns: Namespace, toApi: bool): Namespace {
    map k | k in ns && !Annihilated(k, ns[k], toApi) :: ns[k]
  }

  /**
   * `annihilate_defconst`: drops sentinel values and "py:default" texts, the
   * window-only and start-only keys, and, for the user interface, the API keys.
   * The two deletions of one key never both happen, so no KeyError is raised.
   */
  method AnnihilateDefconst(ns: Namespace, toApi: bool) returns (copied: Namespace)
    ensures copied.Keys <= ns.Keys
    ensures forall k :: k in ns ==> (k in copied <==> !Annihilated(k, ns[k], toApi))
    ensures forall k :: k in copied ==> copied[k] == ns[k]
    ensures copied == Annihilate(ns, toApi)
  {
    copied := ns;
    var pending := ns.Keys;
    while pending != {}
      invariant pending <= ns.Keys && copied.Keys <= ns.Keys
      invariant forall k :: k in pending ==> k in copied
      invariant forall k :: k in ns && k !in pending ==> (k in copied <==> !Annihilated(k, ns[k], toApi))
      invariant forall k :: k in copied ==> copied[k] == ns[k]
      decreases pending
    {
      var k :| k in pending;
      if IsDefaultMarker(ns[k]) {
        copied := Del(copied, k);
      } else {
        if k in WindowDropKeys || k in StartDropKeys {
          copied := Del(copied, k);
        }
        if toApi && k in ApiDropKeys {
          DropListsDisjoint(k);
          copied := Del(copied, k);
        }
      }
      pending := pending - {k};
    }
  }

  /** No API key is also a window-only or start-only key. */
  lemma DropListsDisjoint(k: string)
    ensures k in ApiDropKeys ==> k !in WindowDropKeys && k !in StartDropKeys
  {
  }

  // ---------------------------------------------------------------------
  // _dset and _dump on single values
  // ---------------------------------------------------------------------

  /** Python's str(v) for a value other than the sentinel. */
  function PyStr(v: Value): string
    requires v != Default
  {
    match v
    case NoneValue => "None"
    case Bool(b) => if b then "True" else "False"
    case Int(i) => IntToString(i)
    case Str(s) => s
  }

  /** Python's `v in (None, False)`: true of None, False, and also of the integer 0, which equals False. */
  predicate IsNoneOrFalse(v: Value) {
    v == NoneValue || v == Bool(false) || v == Int(0)
  }

  /** The option text `_dset` writes for one value. */
  function EncodeOption(v: Value): (text: string)
    requires v != Default
    ensures text == "no" <==> IsNoneOrFalse(v) || v == Str("no")
    ensures text == "yes" <==> v == Bool(true) || v == Str("yes")
    ensures v.Int? && v.i != 0 ==> text == IntToString(v.i)
    ensures v.Str? && v.s != "no" ==> text == v.s
  {
    if IsNoneOrFalse(v) then "no"
    else if v == Bool(true) then "yes"
    else PyStr(v)
  }

  const FalseWords: seq<string> := ["no", "false", "0"]
  const TrueWords: seq<string> := ["yes", "true", "1"]

  predicate IsBoolWord(s: string) {
    s in FalseWords || s in TrueWords
  }

  /** The entry `_dump` makes of one option text; None when the entry is left out. */
  function DecodeOption(text: string): (v: Option<Value>)
    ensures v.None? <==> text == DefaultKey
    ensures v.Some? ==> v.value != Default && v.value != NoneValue
    ensures v == Some(Bool(false)) <==> text in FalseWords
    ensures v == Some(Bool(true)) <==> text in TrueWords
    ensures v.Some? && v.value.Int? ==> IsDigits(text) && !IsBoolWord(text) && v.value.i == ParseDigits(text)
    ensures v.Some? && v.value.Str? ==> v.value.s == text && !IsDigits(text) && !IsBoolWord(text)
  {
    assert !IsDigits(DefaultKey) by { assert !IsDigit(DefaultKey[0]); }
    if text in FalseWords then Some(Bool(false))
    else if text in TrueWords then Some(Bool(true))
    else if IsDigits(text) then Some(Int(ParseDigits(text)))
    else if text == DefaultKey then None
    else Some(Str(text))
  }

  /** The values `_dump` reads back exactly as `_dset` wrote them. */
  predicate SurvivesRoundTrip(v: Value) {
    match v
    case Bool(_) => true
    case Int(i) => i >= 2
    case Str(s) => !IsBoolWord(s) && !IsDigits(s) && s != DefaultKey
    case _ => false
  }

  /** Decoding an encoded value gives it back exactly when it is a bool, an int of at least 2, or a plain text. */
  lemma RoundTrip(v: Value)
    requires v != Default
    ensures DecodeOption(EncodeOption(v)) == Some(v) <==> SurvivesRoundTrip(v)
  {
    match v
    case NoneValue =>
    case Bool(b) =>
    case Int(i) =>
      if i >= 2 {
        SingleDigitNumerals(i);
        ParseNatToString(i);
        assert EncodeOption(v) == NatToString(i);
      } else if i < 0 {
        var text := IntToString(i);
        assert !IsDigits(text) by { assert text[0] == '-'; }
      } else if i == 1 {
        assert EncodeOption(v) == "1";
      }
    case Str(s) =>
  }

  /** Only the string "py:default" is written as the sentinel text. */
  lemma SentinelText(v: Value)
    requires v != Default
    ensures EncodeOption(v) == DefaultKey <==> v == Str(DefaultKey)
  {
    assert DefaultKey != "no" && DefaultKey != "yes";
    match v
    case Int(i) =>
      if i != 0 {
        assert EncodeOption(v)[0] == '-' || IsDigit(EncodeOption(v)[0]);
      }
    case Bool(b) =>
    case NoneValue =>
    case Str(s) =>
  }

  /** How the values that do not survive come back. */
  lemma LossyRoundTrip(v: Value)
    requires v != Default
    ensures IsNoneOrFalse(v) ==> DecodeOption(EncodeOption(v)) == Some(Bool(false))
    ensures v == Int(1) ==> DecodeOption(EncodeOption(v)) == Some(Bool(true))
    ensures v.Int? && v.i < 0 ==> DecodeOption(EncodeOption(v)) == Some(Str(IntToString(v.i)))
    ensures v.Str? && v.s in TrueWords ==> DecodeOption(EncodeOption(v)) == Some(Bool(true))
    ensures v.Str? && v.s in FalseWords ==> DecodeOption(EncodeOption(v)) == Some(Bool(false))
    ensures v.Str? && IsDigits(v.s) && !IsBoolWord(v.s) ==> DecodeOption(EncodeOption(v)) == Some(Int(ParseDigits(v.s)))
    ensures v == Str(DefaultKey) ==> DecodeOption(EncodeOption(v)) == None
  {
    if v == Int(1) {
      assert EncodeOption(v) == "1";
    }
    if v.Int? && v.i < 0 {
      var text := IntToString(v.i);
      assert !IsDigits(text) by { assert text[0] == '-'; }
      assert !IsBoolWord(text) by { assert text[0] == '-'; }
    }
  }
}
