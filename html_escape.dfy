/**
 * HtmlEscape: the `sn` helper of the error toast (data/error.js), which
 * makes a value safe to place in HTML by replacing the six characters
 * `& < > " ' /` with character references.
 */
module HtmlEscape {
  import opened Wrappers
  import opened JsValues

  /** The characters `sn` replaces. */
  predicate IsSpecial(c: char) {
    c == '&' || c == '<' || c == '>' || c == '"' || c == '\'' || c == '/'
  }

  /** The characters that cannot appear in the output; `&` does, as the start of every reference. */
  predicate IsUnsafe(c: char) {
    IsSpecial(c) && c != '&'
  }

  /** The replacement table of `sn`. */
  function Entity(c: char): (e: string)
    requires IsSpecial(c)
    ensures |e| > 1 && e[0] == '&' && e[|e| - 1] == ';'
    ensures forall i :: 0 <= i < |e| ==> !IsUnsafe(e[i])
  {
    match c
    case '&' => "&amp;"
    case '<' => "&lt;"
    case '>' => "&gt;"
    case '"' => "&quot;"
    case '\'' => "&#x27;"
    case '/' => "&#x2F;"
  }

  /** What the replacement does with one character. */
  function EscapeChar(c: char): (r: string)
    ensures IsSpecial(c) ==> r == Entity(c)
    ensures !IsSpecial(c) ==> r == [c]
  {
    if IsSpecial(c) then Entity(c) else [c]
  }

  /** `text.replace(/[&<>"'/]/gi, match => map[match])`: every special character replaced, left to right. */
  function Escape(s: string): (r: string)
    ensures |r| >= |s|
    ensures forall i :: 0 <= i < |r| ==> !IsUnsafe(r[i])
    ensures (forall i :: 0 <= i < |s| ==> !IsSpecial(s[i])) ==> r == s
  {
    if |s| == 0 then ""
    else EscapeChar(s[0]) + Escape(s[1..])
  }

  /** Escaping works character by character: it distributes over concatenation. */
  lemma {:induction false} EscapeConcat(a: string, b: string)
    ensures Escape(a + b) == Escape(a) + Escape(b)
  {
    if |a| > 0 {
      var c, t := a[0], a[1..];
      assert a == [c] + t;
      assert a + b == [c] + (t + b);
      EscapeCons(c, t + b);
      EscapeCons(c, t);
      EscapeConcat(t, b);
      var e, x, y := EscapeChar(c), Escape(t), Escape(b);
      assert e + (x + y) == (e + x) + y;
    } else {
      assert a + b == b;
    }
  }

  /** Escaping a text that starts with c escapes c first. */
  lemma EscapeCons(c: char, t: string)
    ensures Escape([c] + t) == EscapeChar(c) + Escape(t)
  {
    var s := [c] + t;
    assert s[0] == c && s[1..] == t;
  }

  /** The references `sn` writes, in the order a decoder tries them. */
  const Entities: seq<(string, char)> :=
    [("&amp;", '&'), ("&lt;", '<'), ("&gt;", '>'), ("&quot;", '"'), ("&#x27;", '\''), ("&#x2F;", '/')]

  /** The first reference that starts t, if any. */
  function ReferenceAt(t: string, from: nat): Option<(string, char)>
    requires from <= |Entities|
    decreases |Entities| - from
  {
    if from == |Entities| then None
    else if Entities[from].0 <= t then Some(Entities[from])
    else ReferenceAt(t, from + 1)
  }

  /** The decoder: each reference written by `sn` turned back into its character. */
  function Unescape(t: string): string
    decreases |t|
  {
    if |t| == 0 then ""
    else
      match ReferenceAt(t, 0)
      case Some((e, c)) => [c] + Unescape(t[|e|..])
      case None => [t[0]] + Unescape(t[1..])
  }

  /** The reference of a special character is the one the decoder finds in front of any text. */
  lemma ReferenceOfEntity(c: char, rest: string)
    requires IsSpecial(c)
    ensures ReferenceAt(Entity(c) + rest, 0) == Some((Entity(c), c))
  {
    var t := Entity(c) + rest;
    assert t[..|Entity(c)|] == Entity(c);
    assert t[0] == '&';
    if c != '&' {
      assert !(Entities[0].0 <= t) by { assert t[1] != 'a'; }
    }
    if c != '&' && c != '<' {
      assert !(Entities[1].0 <= t) by { assert t[1] != 'l'; }
    }
    if c != '&' && c != '<' && c != '>' {
      assert !(Entities[2].0 <= t) by { assert t[1] != 'g'; }
    }
    if c == '\'' || c == '/' {
      assert !(Entities[3].0 <= t) by { assert t[1] != 'q'; }
    }
    if c == '/' {
      assert !(Entities[4].0 <= t) by { assert t[3] != '2' || t[4] != '7'; }
    }
  }

  /** No reference starts with a character other than `&`. */
  lemma NoReferenceAt(c: char, rest: string, from: nat)
    requires c != '&' && from <= |Entities|
    ensures ReferenceAt([c] + rest, from) == None
    decreases |Entities| - from
  {
    if from < |Entities| {
      assert Entities[from].0[0] == '&';
      NoReferenceAt(c, rest, from + 1);
    }
  }

  /** Decoding the escaped text gives back the original: no character is lost, changed or reordered. */
  lemma {:induction false} UnescapeEscape(s: string)
    ensures Unescape(Escape(s)) == s
  {
    if |s| > 0 {
      var c := s[0];
      var rest := Escape(s[1..]);
      UnescapeEscape(s[1..]);
      if IsSpecial(c) {
        ReferenceOfEntity(c, rest);
        assert (Entity(c) + rest)[|Entity(c)|..] == rest;
      } else {
        NoReferenceAt(c, rest, 0);
        assert ([c] + rest)[1..] == rest;
      }
      assert [c] + s[1..] == s;
    }
  }

  /**
   * The argument of `sn`: undefined, a value, or an object with a toString
   * of its own (an Error, say), represented by the text that toString returns.
   */
  datatype JsArg =
    | Undefined
    | Value(v: Json)
    | WithToString(text: string)

  /** Whether `sn` takes its null branch. */
  predicate IsNullish(arg: JsArg) {
    arg.Undefined? || arg == Value(JNull)
  }

  /** The text `sn` escapes: a string itself, or what toString() returns. */
  function ArgText(arg: JsArg): string
    requires !IsNullish(arg)
  {
    match arg
    case Value(v) => ToJsString(v)
    case WithToString(text) => text
  }

  /** `sn`: "null" for undefined and null, otherwise the escaped text of the value. */
  function Sn(arg: JsArg): (r: string)
    ensures IsNullish(arg) ==> r == "null"
    ensures arg.Value? && arg.v.JStr? ==> Unescape(r) == arg.v.s
    ensures !IsNullish(arg) ==> Unescape(r) == ArgText(arg)
    ensures forall i :: 0 <= i < |r| ==> !IsUnsafe(r[i])
  {
    if IsNullish(arg) then "null"
    else
      UnescapeEscape(ArgText(arg));
      Escape(ArgText(arg))
  }
}
