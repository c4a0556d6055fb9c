/**
 * FormBinding: the form helpers of the user interface (data/main.mjs).
 *
 * `collectFormData` reads every element carrying a `data-bind` attribute and
 * builds a nested object from the slash-separated paths; `bindForm` walks the
 * same paths into a profile object and writes what it finds into the
 * elements. Objects are modelled as values (a JSON tree), elements as a
 * class whose `value` and `checked` are updated in place.
 */
module FormBinding {
  import opened Wrappers
  import opened Decimal
  import opened Text
  import opened JsValues

  type Object = map<string, Json>

  /** The exception the module can raise: it runs in strict mode, so writing a property of a primitive throws. */
  datatype JsError = TypeError

  /** The `type` of a bound element, as far as the binder tells them apart. */
  datatype InputType = Checkbox | Number | OtherType

  /** What the binder sees of one element. */
  datatype Field = Field(kind: InputType, bind: string, value: string, checked: bool)

  /** A form element with a `data-bind` attribute. */
  class Element {
    const kind: InputType
    const bind: string
    var value: string
    var checked: bool

    constructor(kind: InputType, bind: string, value: string, checked: bool)
      ensures this.kind == kind && this.bind == bind
      ensures this.value == value && this.checked == checked
    {
      this.kind := kind;
      this.bind := bind;
      this.value := value;
      this.checked := checked;
    }

    function Snapshot(): Field
      reads this
    {
      Field(kind, bind, value, checked)
    }
  }

  /** The elements' current attributes, in document order. */
  function Snapshots(elements: seq<Element>): (fields: seq<Field>)
    reads elements
    ensures |fields| == |elements|
    ensures forall i :: 0 <= i < |elements| ==> fields[i] == elements[i].Snapshot()
  {
    if |elements| == 0 then [] else [elements[0].Snapshot()] + Snapshots(elements[1..])
  }

  /** The property path of a `data-bind` attribute: never empty. */
  function Path(bind: string): (path: seq<string>)
    ensures |path| > 0
  {
    Split(bind, '/')
  }

  /** Whether one of two paths is a prefix of the other, so that writing one disturbs the other. */
  predicate Related(p: seq<string>, q: seq<string>) {
    p <= q || q <= p
  }

  // ---------------------------------------------------------------------
  // collectFormData
  // ---------------------------------------------------------------------

  /** The object collection starts from. */
  function Seed(): Object {
    map["name" := JStr(""), "path" := JStr(""), "app" := JObj(map[]), "start" := JObj(map[]), "config" := JObj(map[])]
  }

  /** The value collection stores for an element: `checked` for a checkbox, the raw `value` otherwise. */
  function Leaf(f: Field): Json {
    if f.kind == Checkbox then JBool(f.checked) else JStr(f.value)
  }

  /** `current[key] || {}`: an existing truthy entry is reused, anything else is replaced by a new object. */
  function Descend(o: Object, key: string): Json {
    if key in o && Truthy(o[key]) then o[key] else JObj(map[])
  }

  /**
   * The walk of one element: every segment but the last is made an object
   * (or reused), the last one receives the leaf. Stepping into a truthy
   * primitive and writing into it throws.
   */
  function SetPath(o: Object, path: seq<string>, leaf: Json): (r: Result<Object, JsError>)
    requires |path| > 0
    decreases |path|
    ensures r.Success? ==> r.value.Keys == o.Keys + {path[0]}
    ensures r.Success? ==> forall k :: k in o && k != path[0] ==> r.value[k] == o[k]
  {
    if |path| == 1 then Success(o[path[0] := leaf])
    else
      var child := Descend(o, path[0]);
      if !child.JObj? then Failure(TypeError)
      else
        var sub :- SetPath(child.fields, path[1..], leaf);
        Success(o[path[0] := JObj(sub)])
  }

  /** The entry at a path, reached through objects only. */
  function At(o: Object, path: seq<string>): Option<Json>
    requires |path| > 0
    decreases |path|
  {
    if path[0] !in o then None
    else if |path| == 1 then Some(o[path[0]])
    else if o[path[0]].JObj? then At(o[path[0]].fields, path[1..])
    else None
  }

  /** The first segments of the elements' paths. */
  function FirstSegments(fields: seq<Field>): set<string> {
    set i | 0 <= i < |fields| :: Path(fields[i].bind)[0]
  }

  /** The result of `collectFormData` on elements with these attributes, in document order. */
  function Collected(fields: seq<Field>): (r: Result<Object, JsError>)
    ensures r.Success? ==> r.value.Keys == Seed().Keys + FirstSegments(fields)
  {
    if |fields| == 0 then Success(Seed())
    else
      var last := fields[|fields| - 1];
      var prev :- Collected(fields[..|fields| - 1]);
      assert FirstSegments(fields) == FirstSegments(fields[..|fields| - 1]) + {Path(last.bind)[0]} by {
        assert forall i :: 0 <= i < |fields| - 1 ==> fields[..|fields| - 1][i] == fields[i];
      }
      SetPath(prev, Path(last.bind), Leaf(last))
  }

  /** `collectFormData`: one walk per element, in document order; a thrown TypeError ends the call. */
  method CollectFormData(elements: seq<Element>) returns (r: Result<Object, JsError>)
    ensures r == Collected(Snapshots(elements))
  {
    ghost var fields := Snapshots(elements);
    var formData := Seed();
    var i := 0;
    assert fields[..0] == [];
    while i < |elements|
      invariant 0 <= i <= |elements|
      invariant Collected(fields[..i]) == Success(formData)
    {
      var next := CollectElement(formData, elements[i]);
      CollectedStep(fields, i);
      if next.Failure? {
        CollectedFailureSticks(fields, i + 1);
        assert Collected(fields) == Failure(TypeError) by { assert Collected(fields).error.TypeError?; }
        return Failure(TypeError);
      }
      formData := next.value;
      i := i + 1;
    }
    assert fields[..i] == fields;
    r := Success(formData);
  }

  /** The callback `collectFormData` runs for one element. */
  method CollectElement(formData: Object, element: Element) returns (next: Result<Object, JsError>)
    ensures next == SetPath(formData, Path(element.bind), Leaf(element.Snapshot()))
  {
    var leaf := if element.kind == Checkbox then JBool(element.checked) else JStr(element.value);
    next := SetPath(formData, Split(element.bind, '/'), leaf);
  }

  /** Collecting one more element is one more walk. */
  lemma CollectedStep(fields: seq<Field>, n: nat)
    requires n < |fields|
    ensures Collected(fields[..n]).Failure? ==> Collected(fields[..n + 1]).Failure?
    ensures Collected(fields[..n]).Success? ==>
      Collected(fields[..n + 1]) == SetPath(Collected(fields[..n]).value, Path(fields[n].bind), Leaf(fields[n]))
  {
    var prefix := fields[..n + 1];
    assert prefix[..|prefix| - 1] == fields[..n] && prefix[|prefix| - 1] == fields[n];
  }

  /** Once a walk throws, collection throws. */
  lemma {:induction false} CollectedFailureSticks(fields: seq<Field>, n: nat)
    requires n <= |fields|
    requires Collected(fields[..n]).Failure?
    ensures Collected(fields).Failure?
    decreases |fields| - n
  {
    if n < |fields| {
      assert fields[..n + 1][..n] == fields[..n];
      CollectedFailureSticks(fields, n + 1);
    } else {
      assert fields[..n] == fields;
    }
  }

  /** After a walk, the leaf is found at its path. */
  lemma {:induction false} SetThenAt(o: Object, path: seq<string>, leaf: Json)
    requires |path| > 0
    requires SetPath(o, path, leaf).Success?
    ensures At(SetPath(o, path, leaf).value, path) == Some(leaf)
    decreases |path|
  {
    if |path| > 1 {
      SetThenAt(Descend(o, path[0]).fields, path[1..], leaf);
    }
  }

  /** Two paths with the same first segment are related exactly when their tails are. */
  lemma SameHead(p: seq<string>, q: seq<string>)
    requires |p| > 0 && |q| > 0 && p[0] == q[0]
    ensures p <= q <==> p[1..] <= q[1..]
    ensures p < q <==> p[1..] < q[1..]
  {
    assert p == [p[0]] + p[1..];
    assert q == [q[0]] + q[1..];
  }

  /** A walk leaves alone every entry whose path is not related to its own. */
  lemma {:induction false} SetKeepsAt(o: Object, path: seq<string>, leaf: Json, other: seq<string>)
    requires |path| > 0 && |other| > 0
    requires SetPath(o, path, leaf).Success?
    requires !Related(path, other)
    ensures At(SetPath(o, path, leaf).value, other) == At(o, other)
    decreases |path|
  {
    if path[0] == other[0] {
      SameHead(path, other);
      SameHead(other, path);
      var child := Descend(o, path[0]);
      var sub := SetPath(child.fields, path[1..], leaf).value;
      assert SetPath(o, path, leaf).value == o[path[0] := JObj(sub)];
      SetKeepsAt(child.fields, path[1..], leaf, other[1..]);
      if other[0] in o && o[other[0]].JObj? {
        assert child == o[other[0]];
      } else {
        EmptyAt(other[1..]);
      }
    }
  }

  lemma EmptyAt(path: seq<string>)
    requires |path| > 0
    ensures At(map[], path) == None
  {
  }

  /** A walk that succeeded keeps later walks possible unless it stored its leaf on their way. */
  lemma {:induction false} SetKeepsSettable(o: Object, path: seq<string>, leaf: Json, other: seq<string>, otherLeaf: Json)
    requires |path| > 0 && |other| > 0
    requires SetPath(o, path, leaf).Success?
    requires SetPath(o, other, otherLeaf).Success?
    requires !(path < other)
    ensures SetPath(SetPath(o, path, leaf).value, other, otherLeaf).Success?
    decreases |path|
  {
    var o' := SetPath(o, path, leaf).value;
    if |other| > 1 {
      var child := Descend(o, other[0]);
      assert child.JObj? && SetPath(child.fields, other[1..], otherLeaf).Success?;
      if path[0] == other[0] {
        SameHead(path, other);
        var sub := SetPath(child.fields, path[1..], leaf).value;
        assert o' == o[path[0] := JObj(sub)];
        SetKeepsSettable(child.fields, path[1..], leaf, other[1..], otherLeaf);
        assert Descend(o', other[0]) == JObj(sub);
      } else {
        assert Descend(o', other[0]) == child;
      }
    }
  }

  /** Every walk into an empty object succeeds. */
  lemma {:induction false} EmptySettable(path: seq<string>, leaf: Json)
    requires |path| > 0
    ensures SetPath(map[], path, leaf).Success?
  {
    if |path| > 1 {
      EmptySettable(path[1..], leaf);
    }
  }

  /** Every walk from the starting object succeeds. */
  lemma SeedSettable(path: seq<string>, leaf: Json)
    requires |path| > 0
    ensures SetPath(Seed(), path, leaf).Success?
  {
    if |path| > 1 {
      assert Descend(Seed(), path[0]) == JObj(map[]);
      EmptySettable(path[1..], leaf);
    }
  }

  /** A path no earlier element stored a leaf on the way to can still be walked. */
  lemma {:induction false} CollectedSettable(fields: seq<Field>, path: seq<string>, leaf: Json)
    requires |path| > 0
    requires Collected(fields).Success?
    requires forall i :: 0 <= i < |fields| ==> !(Path(fields[i].bind) < path)
    ensures SetPath(Collected(fields).value, path, leaf).Success?
  {
    if |fields| == 0 {
      SeedSettable(path, leaf);
    } else {
      var init := fields[..|fields| - 1];
      var last := fields[|fields| - 1];
      CollectedSettable(init, path, leaf);
      SetKeepsSettable(Collected(init).value, Path(last.bind), Leaf(last), path, leaf);
    }
  }

  /** Collection succeeds whenever no element's path runs through the leaf of an earlier element. */
  lemma {:induction false} CollectSucceeds(fields: seq<Field>)
    requires forall i, j :: 0 <= i < j < |fields| ==> !(Path(fields[i].bind) < Path(fields[j].bind))
    ensures Collected(fields).Success?
  {
    if |fields| > 0 {
      var init := fields[..|fields| - 1];
      var last := fields[|fields| - 1];
      CollectSucceeds(init);
      CollectedSettable(init, Path(last.bind), Leaf(last));
    }
  }

  /**
   * The entry at an element's path is that element's leaf, unless a later
   * element's path is related to it. In particular, of two elements bound to
   * the same path the later one wins.
   */
  lemma {:induction false} CollectedAt(fields: seq<Field>, j: nat)
    requires j < |fields|
    requires Collected(fields).Success?
    requires forall k :: j < k < |fields| ==> !Related(Path(fields[j].bind), Path(fields[k].bind))
    ensures At(Collected(fields).value, Path(fields[j].bind)) == Some(Leaf(fields[j]))
  {
    var init := fields[..|fields| - 1];
    var last := fields[|fields| - 1];
    if j == |fields| - 1 {
      SetThenAt(Collected(init).value, Path(last.bind), Leaf(last));
    } else {
      CollectedAt(init, j);
      SetKeepsAt(Collected(init).value, Path(last.bind), Leaf(last), Path(fields[j].bind));
    }
  }

  /** The starting entries survive every element whose path starts elsewhere. */
  lemma {:induction false} SeedSurvives(fields: seq<Field>, key: string)
    requires key in Seed()
    requires Collected(fields).Success?
    requires key !in FirstSegments(fields)
    ensures Collected(fields).value[key] == Seed()[key]
  {
    if |fields| > 0 {
      var init := fields[..|fields| - 1];
      assert FirstSegments(init) <= FirstSegments(fields) by {
        forall s | s in FirstSegments(init) ensures s in FirstSegments(fields) {
          var i :| 0 <= i < |init| && Path(init[i].bind)[0] == s;
          assert fields[i] == init[i];
        }
      }
      SeedSurvives(init, key);
    }
  }

  // ---------------------------------------------------------------------
  // bindForm
  // ---------------------------------------------------------------------

  /** The outcome of reading `value[key]`. */
  datatype Lookup = Found(v: Json) | Undefined | Threw

  /** A canonical array index: "0" or digits without a leading zero. */
  predicate IsIndex(key: string) {
    IsDigits(key) && (key[0] != '0' || |key| == 1)
  }

  /**
   * `value[key]`: an object's own entry, a string's `length` or character,
   * `undefined` on other primitives, a TypeError on null.
   */
  function Get(value: Json, key: string): (r: Lookup)
    ensures value.JNull? <==> r.Threw?
    ensures value.JObj? ==> (r.Found? <==> key in value.fields)
    ensures r.Found? && value.JObj? ==> r.v == value.fields[key]
    ensures value.JNum? || value.JBool? ==> r.Undefined?
  {
    match value
    case JObj(fields) => if key in fields then Found(fields[key]) else Undefined
    case JNull => Threw
    case JStr(s) =>
      if key == "length" then Found(JNum(|s|))
      else if IsIndex(key) && ParseDigits(key) < |s| then Found(JStr([s[ParseDigits(key)]]))
      else Undefined
    case _ => Undefined
  }

  /** The walk of `bindForm` along a path: stops at the first undefined segment. */
  function Resolve(value: Json, path: seq<string>): Lookup
    decreases |path|
  {
    if |path| == 0 then Found(value)
    else
      match Get(value, path[0])
      case Found(v) => Resolve(v, path[1..])
      case Undefined => Undefined
      case Threw => Threw
  }

  /** The outcome of JavaScript's Number() on whole numbers. */
  datatype JsNumber = Num(n: int) | NaN

  /** Number() of a string: empty gives 0, a signed run of digits its value, anything else NaN. */
  function StringToNumber(s: string): (r: JsNumber)
    ensures IsDigits(s) ==> r == Num(ParseDigits(s))
    ensures |s| > 0 && s[0] != '-' && s[0] != '+' && !IsDigits(s) ==> r == NaN
  {
    if s == "" then Num(0)
    else if IsDigits(s) then Num(ParseDigits(s))
    else if s[0] == '-' && IsDigits(s[1..]) then Num(-(ParseDigits(s[1..]) as int))
    else if s[0] == '+' && IsDigits(s[1..]) then Num(ParseDigits(s[1..]))
    else NaN
  }

  /** JavaScript's Number(). */
  function ToNumber(v: Json): JsNumber {
    match v
    case JNum(n) => Num(n)
    case JBool(b) => Num(if b then 1 else 0)
    case JNull => Num(0)
    case JStr(s) => StringToNumber(s)
    case JObj(_) => NaN
  }

  /** The text a number input keeps after assigning a number: NaN is not a valid number and leaves it empty. */
  function NumberInputText(n: JsNumber): (text: string)
    ensures n.NaN? <==> text == ""
    ensures n.Num? && n.n >= 0 ==> IsDigits(text)
  {
    match n
    case Num(i) => IntToString(i)
    case NaN => ""
  }

  /** The text an element's value setter keeps: null becomes empty, other values their string form. */
  function InputText(v: Json): (text: string)
    ensures v.JStr? ==> text == v.s
    ensures v.JNull? ==> text == ""
    ensures !v.JNull? ==> text == ToJsString(v)
  {
    if v.JNull? then "" else ToJsString(v)
  }

  /** An element after the found value is written into it. */
  function Assign(f: Field, v: Json): (g: Field)
    ensures g.kind == f.kind && g.bind == f.bind
    ensures f.kind == Checkbox ==> g.checked == Truthy(v) && g.value == f.value
    ensures f.kind == Number ==> g.value == NumberInputText(ToNumber(v)) && g.checked == f.checked
    ensures f.kind == OtherType ==> g.value == InputText(v) && g.checked == f.checked
  {
    match f.kind
    case Checkbox => f.(checked := Truthy(v))
    case Number => f.(value := NumberInputText(ToNumber(v)))
    case OtherType => f.(value := InputText(v))
  }

  /** One element after binding: written when its whole path is found, untouched otherwise. */
  function Bound(data: Json, f: Field): Field {
    match Resolve(data, Path(f.bind))
    case Found(v) => Assign(f, v)
    case _ => f
  }

  predicate Throws(data: Json, f: Field) {
    Resolve(data, Path(f.bind)).Threw?
  }

  /** The index of the first element whose walk throws, or the number of elements. */
  function FirstThrow(data: Json, fields: seq<Field>): (n: nat)
    ensures n <= |fields|
    ensures forall i :: 0 <= i < n ==> !Throws(data, fields[i])
    ensures n < |fields| ==> Throws(data, fields[n])
  {
    if |fields| == 0 || Throws(data, fields[0]) then 0 else 1 + FirstThrow(data, fields[1..])
  }

  /** The elements after `bindForm`: those before the first throwing walk are bound, the rest untouched. */
  function BoundFields(data: Json, fields: seq<Field>): (r: seq<Field>)
    ensures |r| == |fields|
  {
    var stop := FirstThrow(data, fields);
    seq(|fields|, i requires 0 <= i < |fields| => if i < stop then Bound(data, fields[i]) else fields[i])
  }

  /**
   * `bindForm`: each element in document order; its path is walked into the
   * data and, when every segment is found, the value is written into it. A
   * walk that reads a property of null throws and ends the call.
   */
  method BindForm(data: Json, elements: seq<Element>) returns (err: Option<JsError>)
    requires forall i, j :: 0 <= i < j < |elements| ==> elements[i] != elements[j]
    modifies set e | e in elements
    ensures err.Some? <==> exists i :: 0 <= i < |elements| && Throws(data, old(elements[i].Snapshot()))
    ensures Snapshots(elements) == BoundFields(data, old(Snapshots(elements)))
  {
    ghost var fields := Snapshots(elements);
    assert forall k :: 0 <= k < |elements| ==> old(elements[k].Snapshot()) == fields[k];
    err := None;
    var i := 0;
    while i < |elements|
      invariant 0 <= i <= |elements|
      invariant forall k :: 0 <= k < i ==> !Throws(data, fields[k])
      invariant forall k :: 0 <= k < |elements| ==> elements[k].Snapshot() == if k < i then Bound(data, fields[k]) else fields[k]
    {
      var threw := BindStep(data, elements, fields, i);
      if threw {
        BoundFieldsAt(data, fields, Snapshots(elements), i);
        return Some(TypeError);
      }
      i := i + 1;
    }
    BoundFieldsAt(data, fields, Snapshots(elements), i);
  }

  /** One iteration of `bindForm`: element i is bound unless its walk throws; the others keep their attributes. */
  method BindStep(data: Json, elements: seq<Element>, ghost fields: seq<Field>, i: nat) returns (threw: bool)
    requires forall i, j :: 0 <= i < j < |elements| ==> elements[i] != elements[j]
    requires i < |elements| == |fields|
    requires forall k :: 0 <= k < |elements| ==> elements[k].Snapshot() == if k < i then Bound(data, fields[k]) else fields[k]
    modifies elements[i]
    ensures threw == Throws(data, fields[i])
    ensures forall k :: 0 <= k < |elements| ==>
      elements[k].Snapshot() == if k < i || (k == i && !threw) then Bound(data, fields[k]) else fields[k]
  {
    var element := elements[i];
    threw := BindElement(data, element);
    forall k | 0 <= k < |elements| && k != i ensures elements[k] != element {
    }
  }

  /** Elements bound before the first throwing walk and untouched from there on are the bound elements. */
  lemma BoundFieldsAt(data: Json, fields: seq<Field>, now: seq<Field>, stop: nat)
    requires |now| == |fields| && stop <= |fields|
    requires stop < |fields| ==> Throws(data, fields[stop])
    requires forall k :: 0 <= k < stop ==> !Throws(data, fields[k])
    requires forall k :: 0 <= k < |now| ==> now[k] == if k < stop then Bound(data, fields[k]) else fields[k]
    ensures stop == FirstThrow(data, fields)
    ensures now == BoundFields(data, fields)
  {
    FirstThrowUnique(data, fields, stop);
  }

  /** The first throwing walk is the only index with no throw before and a throw at it (or the end). */
  lemma {:induction false} FirstThrowUnique(data: Json, fields: seq<Field>, stop: nat)
    requires stop <= |fields|
    requires stop < |fields| ==> Throws(data, fields[stop])
    requires forall k :: 0 <= k < stop ==> !Throws(data, fields[k])
    ensures stop == FirstThrow(data, fields)
  {
    if stop > 0 {
      FirstThrowUnique(data, fields[1..], stop - 1);
    }
  }

  /** The callback `bindForm` runs for one element; reports whether its walk threw. */
  method BindElement(data: Json, element: Element) returns (threw: bool)
    modifies element
    ensures threw == Throws(data, old(element.Snapshot()))
    ensures element.Snapshot() == if threw then old(element.Snapshot()) else Bound(data, old(element.Snapshot()))
  {
    var path := Split(element.bind, '/');
    var value := data;
    var j := 0;
    while j < |path|
      invariant 0 <= j <= |path|
      invariant Resolve(data, path) == Resolve(value, path[j..])
    {
      assert path[j..][1..] == path[j + 1..];
      var lookup := Get(value, path[j]);
      if lookup.Threw? {
        return true;
      }
      if lookup.Undefined? {
        return false;
      }
      value := lookup.v;
      j := j + 1;
    }
    assert Resolve(data, path) == Found(value);
    if element.kind == Checkbox {
      element.checked := Truthy(value);
    } else if element.kind == Number {
      element.value := NumberInputText(ToNumber(value));
    } else {
      element.value := InputText(value);
    }
    threw := false;
  }

  /**
   * The edit flow binds a profile into the form and collects it again. When
   * every element's path is found in the profile and no two paths are
   * related, collection succeeds and stores, at each path, the string the
   * profile held there for an ordinary element and its truthiness for a
   * checkbox.
   */
  lemma BindThenCollect(data: Json, fields: seq<Field>)
    requires forall i, j :: 0 <= i < |fields| && 0 <= j < |fields| && i != j ==> !Related(Path(fields[i].bind), Path(fields[j].bind))
    requires forall i :: 0 <= i < |fields| ==> Resolve(data, Path(fields[i].bind)).Found?
    ensures Collected(BoundFields(data, fields)).Success?
    ensures forall i :: 0 <= i < |fields| ==>
      var v := Resolve(data, Path(fields[i].bind)).v;
      var collected := At(Collected(BoundFields(data, fields)).value, Path(fields[i].bind));
      && (fields[i].kind == Checkbox ==> collected == Some(JBool(Truthy(v))))
      && (fields[i].kind == OtherType && v.JStr? ==> collected == Some(v))
      && (fields[i].kind == Number ==> collected == Some(JStr(NumberInputText(ToNumber(v)))))
  {
    var bound := BoundFields(data, fields);
    assert forall i :: 0 <= i < |fields| ==> !Throws(data, fields[i]);
    assert forall i :: 0 <= i < |fields| ==> bound[i] == Bound(data, fields[i]);
    CollectSucceeds(bound);
    forall i | 0 <= i < |fields|
      ensures At(Collected(bound).value, Path(fields[i].bind)) == Some(Leaf(bound[i]))
    {
      CollectedAt(bound, i);
    }
  }
}
