/**
 * Validation: the accumulator of failed checks (webapps/validation.py).
 * Only failed conditions are recorded, in the order they were reported.
 */
module Validation {
  import opened Wrappers

  /** One recorded check. */
  datatype ValidateEntry = ValidateEntry(condition: bool, of: string, message: string)

  /** A value of the dictionaries `to_json` returns. */
  datatype Item = BoolItem(b: bool) | StrItem(s: string)

  /** `ValidateEntry._asdict()`: the fields by name. */
  function AsDict(e: ValidateEntry): map<string, Item> {
    map["condition" := BoolItem(e.condition), "of" := StrItem(e.of), "message" := StrItem(e.message)]
  }

  /** Reading an entry back from its dictionary; None when a field is missing or of the wrong kind. */
  function FromDict(d: map<string, Item>): Option<ValidateEntry> {
    if "condition" in d && "of" in d && "message" in d
       && d["condition"].BoolItem? && d["of"].StrItem? && d["message"].StrItem?
    then Some(ValidateEntry(d["condition"].b, d["of"].s, d["message"].s))
    else None
  }

  /** The entries a list of dictionaries describes, if each one describes an entry. */
  function FromJson(ds: seq<map<string, Item>>): (r: Option<seq<ValidateEntry>>)
    ensures r.Some? ==> |r.value| == |ds|
  {
    if |ds| == 0 then Some([])
    else
      match (FromDict(ds[0]), FromJson(ds[1..]))
      case (Some(e), Some(rest)) => Some([e] + rest)
      case _ => None
  }

  /** Every dictionary has exactly the three fields, and reading them back gives the entry. */
  lemma DictRoundTrip(e: ValidateEntry)
    ensures AsDict(e).Keys == {"condition", "of", "message"}
    ensures FromDict(AsDict(e)) == Some(e)
  {
  }

  /** The `Validation` object. */
  class Validation {
    var entries: seq<ValidateEntry>

    /** Every recorded entry is a failed check. */
    ghost predicate Valid()
      reads this
    {
      forall i :: 0 <= i < |entries| ==> !entries[i].condition
    }

    /** A fresh accumulator holds no entries. */
    constructor()
      ensures Valid()
      ensures entries == []
    {
      entries := [];
    }

    /** `set`: a passed check leaves the entries alone; a failed one is appended at the end. */
    method Set(condition: bool, of: string, message: string)
      requires Valid()
      modifies this
      ensures Valid()
      ensures condition ==> entries == old(entries)
      ensures !condition ==> entries == old(entries) + [ValidateEntry(false, of, message)]
    {
      if !condition {
        entries := entries + [ValidateEntry(condition, of, message)];
      }
    }

    /** `to_json`: one dictionary per entry, in order; the entries are only read. */
    function ToJson(): (r: seq<map<string, Item>>)
      reads this
      ensures |r| == |entries|
      ensures forall i :: 0 <= i < |r| ==> r[i] == AsDict(entries[i])
      ensures FromJson(r) == Some(entries)
    {
      var stored := entries;
      ToJsonRoundTrip(stored);
      seq(|stored|, i requires 0 <= i < |stored| => AsDict(stored[i]))
    }
  }

  /** The dictionaries of `to_json` describe exactly the stored entries, in order. */
  lemma {:induction false} ToJsonRoundTrip(entries: seq<ValidateEntry>)
    ensures FromJson(seq(|entries|, i requires 0 <= i < |entries| => AsDict(entries[i]))) == Some(entries)
  {
    var ds := seq(|entries|, i requires 0 <= i < |entries| => AsDict(entries[i]));
    if |entries| > 0 {
      DictRoundTrip(entries[0]);
      ToJsonRoundTrip(entries[1..]);
      assert ds[1..] == seq(|entries[1..]|, i requires 0 <= i < |entries[1..]| => AsDict(entries[1..][i]));
      assert [entries[0]] + entries[1..] == entries;
    }
  }
}
