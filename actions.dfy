/**
 * Actions: how `bound_buttons` (data/main.mjs) reads the `data-action` and
 * `data-action-prevent` attributes of each button and decides whether to
 * attach a click listener for a known action or to warn.
 */
module Actions {
  import opened Wrappers
  import opened Decimal
  import opened Text
  import opened JsValues

  /** The own keys of the `ACTIONS` table. */
  const ActionNames: set<string> :=
    {"exec", "private_exec", "edit", "rename", "push_back", "delete", "submit", "back"}

  /** The properties every plain object inherits from Object.prototype; all of them are truthy. */
  const PrototypeNames: set<string> :=
    {"constructor", "hasOwnProperty", "isPrototypeOf", "propertyIsEnumerable", "toLocaleString",
     "toString", "valueOf", "__defineGetter__", "__defineSetter__", "__lookupGetter__",
     "__lookupSetter__", "__proto__"}

  /** A button with a `data-action` attribute; `prevent` is its `data-action-prevent` attribute, None when absent. */
  datatype Button = Button(action: string, prevent: Option<string>)

  /** The exceptions `bound_buttons` raises. */
  datatype ButtonError = ValueError | SyntaxError

  /** What happens to one button. */
  datatype Decision =
    | Attach(action: string, arg: Option<string>, preventDefault: bool)
    | Warn(action: string)

  /** `const [action, profileName] = text.split(":")`: the first field and, if there is one, the second. */
  function ParseAction(text: string): (r: (string, Option<string>))
    ensures ':' !in r.0
    ensures r.1.None? <==> ':' !in text
    ensures r.1.Some? ==> ':' !in r.1.value
  {
    var fields := Split(text, ':');
    if |fields| == 1 then
      assert ':' !in text by { JoinSplit(text, ':'); }
      (fields[0], None)
    else
      assert ':' in text by { JoinSplit(text, ':'); ColonInJoin(fields); }
      (fields[0], Some(fields[1]))
  }

  lemma ColonInJoin(fields: seq<string>)
    requires |fields| > 1
    ensures ':' in Join(fields, ':')
  {
    var t := Join(fields, ':');
    assert t[|fields[0]|] == ':';
  }

  /** The attribute a button is written with: the action, then the argument after a colon. */
  function FormatAction(action: string, arg: Option<string>): string {
    match arg
    case None => action
    case Some(a) => action + [':'] + a
  }

  /** Reading the attribute back gives the action and argument it was written from, when neither holds a colon. */
  lemma ParseFormatAction(action: string, arg: Option<string>)
    requires ':' !in action
    requires arg.Some? ==> ':' !in arg.value
    ensures ParseAction(FormatAction(action, arg)) == (action, arg)
  {
    if arg.Some? {
      SplitPrefix(action, ':', arg.value);
    }
  }

  /** Only the text before a second colon reaches the action: "exec:a:b" passes "a". */
  lemma ArgumentStopsAtColon(action: string, arg: string, more: string)
    requires ':' !in action && ':' !in arg
    ensures ParseAction(action + [':'] + arg + [':'] + more) == (action, Some(arg))
  {
    SplitPrefix(action, ':', arg + [':'] + more);
    SplitPrefix(arg, ':', more);
    assert action + [':'] + arg + [':'] + more == action + [':'] + (arg + [':'] + more);
  }

  // ---------------------------------------------------------------------
  // JSON.parse of data-action-prevent
  // ---------------------------------------------------------------------

  /** A JSON integer: an optional minus sign, then "0" or digits without a leading zero. */
  predicate IsJsonInt(text: string) {
    var digits := if |text| > 0 && text[0] == '-' then text[1..] else text;
    IsDigits(digits) && (digits[0] != '0' || |digits| == 1)
  }

  /** A character that may stand unescaped inside a JSON string. */
  predicate IsPlainChar(c: char) {
    c != '"' && c != '\\' && c as int >= 0x20
  }

  /** JSON.parse on literals, whole numbers and strings without escapes (never an object); anything else is a SyntaxError. */
  function ParseJson(text: string): Result<Json, ButtonError> {
    if text == "true" then Success(JBool(true))
    else if text == "false" then Success(JBool(false))
    else if text == "null" then Success(JNull)
    else if IsJsonInt(text) then
      if text[0] == '-' then Success(JNum(-(ParseDigits(text[1..]) as int)))
      else Success(JNum(ParseDigits(text)))
    else if |text| >= 2 && text[0] == '"' && text[|text| - 1] == '"'
         && forall i :: 1 <= i < |text| - 1 ==> IsPlainChar(text[i])
    then Success(JStr(text[1..|text| - 1]))
    else Failure(SyntaxError)
  }

  /** JSON.stringify of a value other than an object. */
  function Stringify(v: Json): string
    requires !v.JObj?
  {
    match v
    case JBool(b) => if b then "true" else "false"
    case JNull => "null"
    case JNum(n) => IntToString(n)
    case JStr(s) => "\"" + s + "\""
  }

  /** Parsing what JSON.stringify writes gives the value back. */
  lemma ParseStringify(v: Json)
    requires !v.JObj?
    requires v.JStr? ==> forall i :: 0 <= i < |v.s| ==> IsPlainChar(v.s[i])
    ensures ParseJson(Stringify(v)) == Success(v)
  {
    match v
    case JNum(n) => ParseStringifyNumber(n);
    case JStr(s) => ParseStringifyString(s);
    case _ =>
  }

  lemma ParseStringifyNumber(n: int)
    ensures ParseJson(IntToString(n)) == Success(JNum(n))
  {
    var text := IntToString(n);
    var m := if n < 0 then -n else n;
    var digits := NatToString(m);
    assert text == (if n < 0 then "-" + digits else digits);
    assert digits == (if n < 0 then text[1..] else text);
    assert IsJsonInt(text) by {
      if |digits| > 1 {
        SingleDigitNumerals(m);
      }
    }
    assert text != "true" && text != "false" && text != "null" by {
      assert text[0] == '-' || IsDigit(text[0]);
    }
    ParseNatToString(m);
  }

  lemma ParseStringifyString(s: string)
    requires forall i :: 0 <= i < |s| ==> IsPlainChar(s[i])
    ensures ParseJson("\"" + s + "\"") == Success(JStr(s))
  {
    var text := "\"" + s + "\"";
    assert text[1..|text| - 1] == s;
    assert text[0] == '"';
    assert !IsJsonInt(text) by { assert !IsDigit(text[0]); }
  }

  /** `JSON.parse(prevent || 'true')`: a missing or empty attribute means "prevent". */
  function PreventText(prevent: Option<string>): string {
    if prevent.None? || prevent.value == "" then "true" else prevent.value
  }

  // ---------------------------------------------------------------------
  // The lookup and the decision
  // ---------------------------------------------------------------------

  /** How `ACTIONS[action]` is looked up. */
  datatype LookupRule =
    | PrototypeChain  // property access: own keys and inherited Object.prototype members
    | OwnKeys         // the table's own keys only

  predicate IsFound(rule: LookupRule, action: string) {
    action in ActionNames || (rule == PrototypeChain && action in PrototypeNames)
  }

  /**
   * The decision for one button: the attribute is split, the prevent
   * attribute is parsed (a SyntaxError escapes), and a listener is attached
   * when the lookup finds the action.
   */
  function DecideWith(rule: LookupRule, b: Button): (r: Result<Decision, ButtonError>)
    ensures r.Failure? <==> ParseJson(PreventText(b.prevent)).Failure?
    ensures r.Success? ==> (r.value.Attach? <==> IsFound(rule, ParseAction(b.action).0))
    ensures r.Success? ==> r.value.action == ParseAction(b.action).0
    ensures r.Success? && r.value.Attach? ==>
      r.value.arg == ParseAction(b.action).1 && r.value.preventDefault == Truthy(ParseJson(PreventText(b.prevent)).value)
  {
    var (action, arg) := ParseAction(b.action);
    var prevention :- ParseJson(PreventText(b.prevent));
    if IsFound(rule, action) then Success(Attach(action, arg, Truthy(prevention)))
    else Success(Warn(action))
  }

  /** The decision as the code makes it: `ACTIONS[action]` also finds inherited members. */
  function DecideAsWritten(b: Button): Result<Decision, ButtonError> {
    DecideWith(PrototypeChain, b)
  }

  /** The intended decision: only the actions of the table are attached. */
  function Decide(b: Button): Result<Decision, ButtonError> {
    DecideWith(OwnKeys, b)
  }

  /** A button naming an inherited member gets a listener as written, and a warning as intended. */
  lemma InheritedNameAttaches()
    ensures DecideAsWritten(Button("toString", None)) == Success(Attach("toString", None, true))
    ensures Decide(Button("toString", None)) == Success(Warn("toString"))
  {
    ToStringButton();
    ToStringInherited();
    assert DecideAsWritten(Button("toString", None)) == Success(Attach("toString", None, true));
  }

  /** The button "toString" names the action "toString", has no argument, and prevents the default. */
  lemma ToStringButton()
    ensures ParseAction("toString") == ("toString", None)
    ensures ParseJson(PreventText(None)) == Success(JBool(true))
  {
    ParseFormatAction("toString", None);
  }

  /** "toString" is inherited from Object.prototype and is not an action of the table. */
  lemma ToStringInherited()
    ensures "toString" in PrototypeNames && "toString" !in ActionNames
  {
    assert |"toString"| == 8;
    assert forall a :: a in ActionNames ==> a[0] != 't';
  }

  /** With the intended lookup a listener is attached exactly for the table's actions. */
  lemma AttachOnlyKnown(b: Button)
    requires Decide(b).Success?
    ensures Decide(b).value.Attach? <==> ParseAction(b.action).0 in ActionNames
  {
  }

  /** Without a usable prevent attribute the default action is prevented. */
  lemma PreventByDefault(b: Button)
    requires b.prevent.None? || b.prevent == Some("")
    ensures Decide(b).Success?
    ensures Decide(b).value.Attach? ==> Decide(b).value.preventDefault
  {
  }

  /** The prevent words: "true" prevents; "false", "null" and "0" do not. */
  lemma PreventWords(b: Button)
    requires b.prevent.Some? && b.prevent.value in {"true", "false", "null", "0"}
    ensures Decide(b).Success?
    ensures Decide(b).value.Attach? ==> (Decide(b).value.preventDefault <==> b.prevent.value == "true")
  {
    if b.prevent.value == "0" {
      assert IsJsonInt("0");
      assert ParseDigits("0") == 0 by { assert "0"[..0] == ""; }
    }
  }

  /**
   * `bound_buttons`: a missing base raises ValueError; otherwise each button
   * is decided in document order, and a SyntaxError from one of them ends
   * the call, the earlier buttons keeping their listeners. With the
   * `PrototypeChain` rule this is the code as written, with `OwnKeys` the
   * intended lookup.
   */
  method BoundButtons(rule: LookupRule, base: Option<seq<Button>>) returns (decisions: seq<Decision>, err: Option<ButtonError>)
    ensures base.None? ==> decisions == [] && err == Some(ValueError)
    ensures base.Some? ==> |decisions| <= |base.value|
    ensures base.Some? ==> forall i :: 0 <= i < |decisions| ==> DecideWith(rule, base.value[i]) == Success(decisions[i])
    ensures base.Some? && err.None? ==> |decisions| == |base.value|
    ensures base.Some? && err.Some? ==> |decisions| < |base.value| && DecideWith(rule, base.value[|decisions|]) == Failure(err.value)
  {
    if base.None? {
      return [], Some(ValueError);
    }
    var buttons := base.value;
    decisions := [];
    err := None;
    var i := 0;
    while i < |buttons|
      invariant 0 <= i <= |buttons| && |decisions| == i
      invariant forall k :: 0 <= k < i ==> DecideWith(rule, buttons[k]) == Success(decisions[k])
    {
      var decision := DecideButton(rule, buttons[i]);
      if decision.Failure? {
        return decisions, Some(decision.error);
      }
      decisions := decisions + [decision.value];
      i := i + 1;
    }
  }

  /** The loop body of `bound_buttons` for one button. */
  method DecideButton(rule: LookupRule, button: Button) returns (r: Result<Decision, ButtonError>)
    ensures r == DecideWith(rule, button)
  {
    var (action, arg) := ParseAction(button.action);
    var prevention := ParseJson(PreventText(button.prevent));
    if prevention.Failure? {
      return Failure(prevention.error);
    }
    if action in ActionNames || (rule == PrototypeChain && action in PrototypeNames) {
      r := Success(Attach(action, arg, Truthy(prevention.value)));
    } else {
      r := Success(Warn(action));
    }
  }
}
