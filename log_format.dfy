/**
 * The sprintf-like `format` of FastLogTool: `template.replace` with the
 * pattern /%((%)|s|d|f|lf|i|x|X|u)/g and a callback that takes its argument
 * from a cursor advanced left to right.
 *
 * The text is first cut into tokens the way the global pattern scans it
 * (Tokens, with Spell as its inverse); Render gives the replacement of a
 * token sequence with the cursor threaded through; Format is the scanning
 * loop itself.
 */
module LogFormat {
  import opened JsValue

  /** The alternatives of the pattern, one per placeholder it recognises. */
  datatype Directive = Percent | S | D | F | LF | I | LowerX | UpperX | U

  function Spelling(d: Directive): (r: string)
    ensures 2 <= |r| <= 3 && r[0] == '%'
  {
    match d
    case Percent => "%%"
    case S => "%s"
    case D => "%d"
    case F => "%f"
    case LF => "%lf"
    case I => "%i"
    case LowerX => "%x"
    case UpperX => "%X"
    case U => "%u"
  }

  /** The placeholder the pattern matches at the head of s, if any. */
  function MatchAt(s: string): (m: Option<Directive>)
    ensures m.Some? ==> Spelling(m.value) <= s
    ensures m.None? ==> forall d :: !(Spelling(d) <= s)
  {
    if |s| < 2 || s[0] != '%' then None
    else match s[1]
      case '%' => Some(Percent)
      case 's' => Some(S)
      case 'd' => Some(D)
      case 'f' => Some(F)
      case 'l' => if |s| >= 3 && s[2] == 'f' then Some(LF) else None
      case 'i' => Some(I)
      case 'x' => Some(LowerX)
      case 'X' => Some(UpperX)
      case 'u' => Some(U)
      case _ => None
  }

  datatype Token = Text(c: char) | Placeholder(d: Directive)

  /**
   * The global scan: a match at the current position is consumed whole;
   * where nothing matches, one character is copied and the scan moves on.
   */
  function Tokens(s: string): seq<Token>
    decreases |s|
  {
    if s == [] then []
    else match MatchAt(s)
      case Some(d) => [Placeholder(d)] + Tokens(s[|Spelling(d)|..])
      case None => [Text(s[0])] + Tokens(s[1..])
  }

  function TokenText(t: Token): string {
    match t
    case Text(c) => [c]
    case Placeholder(d) => Spelling(d)
  }

  function Spell(ts: seq<Token>): string {
    if ts == [] then "" else TokenText(ts[0]) + Spell(ts[1..])
  }

  /** The scan loses nothing: spelling the tokens gives the template back. */
  lemma {:induction false} SpellTokens(s: string)
    ensures Spell(Tokens(s)) == s
    decreases |s|
  {
    if s != [] {
      match MatchAt(s)
      case Some(d) =>
        var n := |Spelling(d)|;
        SpellTokens(s[n..]);
        var ts := [Placeholder(d)] + Tokens(s[n..]);
        assert ts[0] == Placeholder(d) && ts[1..] == Tokens(s[n..]);
        assert s == s[..n] + s[n..];
      case None =>
        SpellTokens(s[1..]);
        var ts := [Text(s[0])] + Tokens(s[1..]);
        assert ts[0] == Text(s[0]) && ts[1..] == Tokens(s[1..]);
        assert s == [s[0]] + s[1..];
    }
  }

  /**
   * Conversions the JavaScript runtime performs and the model takes as given:
   * String(v) of a number, array or object; parseFloat and parseInt of an
   * argument followed by the NaN-to-0 fallback and String of the number; and
   * Number.prototype.toString(16).
   */
  datatype Runtime = Runtime(
    show: Value -> string,
    parseFloatText: Value -> string,
    parseIntText: Value -> string,
    hex: int -> string)

  /** `undefined.toString(16)` throws a TypeError. */
  datatype FormatError = ToStringOfUndefined

  /** String(v). */
  function ToText(v: Value, rt: Runtime): string {
    match v
    case Undefined => "undefined"
    case Null => "null"
    case Bool(b) => if b then "true" else "false"
    case Str(s) => s
    case _ => rt.show(v)
  }

  /** v.toString(16): only a number honours the radix. */
  function Radix16(v: Value, rt: Runtime): Result<string, FormatError> {
    match v
    case Undefined => Err(ToStringOfUndefined)
    case Num(n) => Ok(rt.hex(n))
    case _ => Ok(ToText(v, rt))
  }

  function LowerChar(c: char): char {
    if 'A' <= c <= 'Z' then (c as int + 32) as char else c
  }

  function UpperChar(c: char): char {
    if 'a' <= c <= 'z' then (c as int - 32) as char else c
  }

  /** ASCII lower-casing: no upper-case letter is left, other characters are kept, letters move by 32. */
  function Lower(s: string): (r: string)
    ensures |r| == |s|
    ensures forall i :: 0 <= i < |r| ==> !('A' <= r[i] <= 'Z')
    ensures forall i :: 0 <= i < |s| && !('A' <= s[i] <= 'Z') ==> r[i] == s[i]
    ensures forall i :: 0 <= i < |s| && 'A' <= s[i] <= 'Z' ==> r[i] as int == s[i] as int + 32
  {
    seq(|s|, i requires 0 <= i < |s| => LowerChar(s[i]))
  }

  /** ASCII upper-casing: no lower-case letter is left, other characters are kept, letters move by 32. */
  function Upper(s: string): (r: string)
    ensures |r| == |s|
    ensures forall i :: 0 <= i < |r| ==> !('a' <= r[i] <= 'z')
    ensures forall i :: 0 <= i < |s| && !('a' <= s[i] <= 'z') ==> r[i] == s[i]
    ensures forall i :: 0 <= i < |s| && 'a' <= s[i] <= 'z' ==> r[i] as int == s[i] as int - 32
  {
    seq(|s|, i requires 0 <= i < |s| => UpperChar(s[i]))
  }

  function MapOk(r: Result<string, FormatError>, f: string -> string): Result<string, FormatError> {
    match r
    case Ok(s) => Ok(f(s))
    case Err(e) => Err(e)
  }

  /**
   * The callback's text for a placeholder that takes argument v. The
   * `case '%d' || '%f' || '%lf'` and `case '%i' || '%u'` labels evaluate to
   * '%d' and '%i', so only those two parse their argument; a null argument
   * skips the switch.
   */
  function Substitute(d: Directive, v: Value, rt: Runtime): Result<string, FormatError>
    requires d != LF
  {
    if v == Null then Ok(ToText(v, rt))
    else match d
      case D => Ok(rt.parseFloatText(v))
      case I => Ok(rt.parseIntText(v))
      case LowerX => MapOk(Radix16(v, rt), Lower)
      case UpperX => MapOk(Radix16(v, rt), Upper)
      case _ => Ok(ToText(v, rt))
  }

  /** `args[i]`: past the end the argument is undefined. */
  function ArgAt(args: seq<Value>, i: nat): Value {
    if i < |args| then args[i] else Undefined
  }

  function Prepend(p: string, r: Result<string, FormatError>): Result<string, FormatError> {
    match r
    case Ok(s) => Ok(p + s)
    case Err(e) => Err(e)
  }

  /** The first result, then the second: the first error wins. */
  function Then(a: Result<string, FormatError>, b: Result<string, FormatError>): Result<string, FormatError> {
    match a
    case Ok(s) => Prepend(s, b)
    case Err(e) => Err(e)
  }

  /**
   * The replacement of a token sequence, with the cursor at i. `%lf` gives
   * 'f' (the third character of the matched text) and takes no argument;
   * every other placeholder, `%%` included, takes the next one.
   */
  function Render(ts: seq<Token>, args: seq<Value>, i: nat, rt: Runtime): Result<string, FormatError>
    decreases |ts|
  {
    if ts == [] then Ok("")
    else match ts[0]
      case Text(c) => Prepend([c], Render(ts[1..], args, i, rt))
      case Placeholder(d) =>
        if d == LF then Prepend("f", Render(ts[1..], args, i, rt))
        else match Substitute(d, ArgAt(args, i), rt)
          case Err(e) => Err(e)
          case Ok(t) => Prepend(t, Render(ts[1..], args, i + 1, rt))
  }

  /** The number of arguments a token sequence takes. */
  function Consumed(ts: seq<Token>): nat {
    if ts == [] then 0
    else (if ts[0].Placeholder? && ts[0].d != LF then 1 else 0) + Consumed(ts[1..])
  }

  /** format(template, ...args). */
  function Formatted(template: string, args: seq<Value>, rt: Runtime): Result<string, FormatError> {
    Render(Tokens(template), args, 0, rt)
  }

  lemma PrependEmpty(r: Result<string, FormatError>)
    ensures Prepend("", r) == r
  {
    if r.Ok? {
      assert "" + r.value == r.value;
    }
  }

  lemma PrependPrepend(a: string, b: string, r: Result<string, FormatError>)
    ensures Prepend(a, Prepend(b, r)) == Prepend(a + b, r)
  {
    if r.Ok? {
      assert a + (b + r.value) == (a + b) + r.value;
    }
  }

  /**
   * Arguments are consumed left to right: the tokens after p see the cursor
   * advanced by exactly the number of arguments p took.
   */
  lemma {:induction false} RenderAppend(p: seq<Token>, q: seq<Token>, args: seq<Value>, i: nat, rt: Runtime)
    ensures Render(p + q, args, i, rt) == Then(Render(p, args, i, rt), Render(q, args, i + Consumed(p), rt))
    decreases |p|
  {
    if p == [] {
      assert p + q == q;
      PrependEmpty(Render(q, args, i, rt));
    } else {
      assert (p + q)[0] == p[0] && (p + q)[1..] == p[1..] + q;
      match p[0]
      case Text(c) =>
        RenderAppend(p[1..], q, args, i, rt);
        var tail := Render(p[1..], args, i, rt);
        if tail.Ok? {
          PrependPrepend([c], tail.value, Render(q, args, i + Consumed(p), rt));
        }
      case Placeholder(d) =>
        if d == LF {
          RenderAppend(p[1..], q, args, i, rt);
          var tail := Render(p[1..], args, i, rt);
          if tail.Ok? {
            PrependPrepend("f", tail.value, Render(q, args, i + Consumed(p), rt));
          }
        } else {
          match Substitute(d, ArgAt(args, i), rt)
          case Err(e) =>
          case Ok(t) =>
            RenderAppend(p[1..], q, args, i + 1, rt);
            var tail := Render(p[1..], args, i + 1, rt);
            if tail.Ok? {
              PrependPrepend(t, tail.value, Render(q, args, i + Consumed(p), rt));
            }
        }
    }
  }

  /** Text without a '%' is copied unchanged, whatever the arguments. */
  lemma {:induction false} LiteralTextUnchanged(s: string, args: seq<Value>, i: nat, rt: Runtime)
    requires '%' !in s
    ensures Render(Tokens(s), args, i, rt) == Ok(s)
    decreases |s|
  {
    if s != [] {
      assert MatchAt(s) == None;
      assert '%' !in s[1..];
      LiteralTextUnchanged(s[1..], args, i, rt);
      var ts := [Text(s[0])] + Tokens(s[1..]);
      assert ts[0] == Text(s[0]) && ts[1..] == Tokens(s[1..]);
      assert s == [s[0]] + s[1..];
    }
  }

  /**
   * A template that starts with a placeholder: the placeholder is replaced
   * (`%lf` by 'f' without an argument, every other one from the argument at
   * the cursor) and the rest is formatted with the cursor moved on.
   */
  lemma LeadingPlaceholder(d: Directive, rest: string, args: seq<Value>, i: nat, rt: Runtime)
    ensures Render(Tokens(Spelling(d) + rest), args, i, rt) ==
      if d == LF then Prepend("f", Render(Tokens(rest), args, i, rt))
      else Then(Substitute(d, ArgAt(args, i), rt), Render(Tokens(rest), args, i + 1, rt))
  {
    var s := Spelling(d) + rest;
    assert MatchAt(s) == Some(d);
    assert s[|Spelling(d)|..] == rest;
    var ts := [Placeholder(d)] + Tokens(rest);
    assert ts[0] == Placeholder(d) && ts[1..] == Tokens(rest);
  }

  /** `%lf` becomes 'f' and leaves the cursor where it was. */
  lemma LfTakesNoArgument(rest: string, args: seq<Value>, i: nat, rt: Runtime)
    ensures Render(Tokens("%lf" + rest), args, i, rt) == Prepend("f", Render(Tokens(rest), args, i, rt))
  {
    LeadingPlaceholder(LF, rest, args, i, rt);
  }

  /**
   * `%%` is not an escape: it takes the argument at the cursor and prints it
   * exactly as `%s` would, so `%%%s` with two strings prints both.
   */
  lemma PercentTakesArgument(rest: string, args: seq<Value>, i: nat, rt: Runtime)
    ensures Render(Tokens("%%" + rest), args, i, rt) == Render(Tokens("%s" + rest), args, i, rt)
    ensures Render(Tokens("%%" + rest), args, i, rt) == Then(Ok(ToText(ArgAt(args, i), rt)), Render(Tokens(rest), args, i + 1, rt))
  {
    LeadingPlaceholder(Percent, rest, args, i, rt);
    LeadingPlaceholder(S, rest, args, i, rt);
  }

  /**
   * Only `%d` and `%i` parse the argument at the cursor; `%f` and `%u` print
   * it as text. A null argument is covered by NullAsIs.
   */
  lemma OnlyDAndIParse(rest: string, args: seq<Value>, i: nat, rt: Runtime)
    requires ArgAt(args, i) != Null
    ensures var v, tail := ArgAt(args, i), Render(Tokens(rest), args, i + 1, rt);
      && Render(Tokens("%d" + rest), args, i, rt) == Prepend(rt.parseFloatText(v), tail)
      && Render(Tokens("%i" + rest), args, i, rt) == Prepend(rt.parseIntText(v), tail)
      && Render(Tokens("%f" + rest), args, i, rt) == Prepend(ToText(v, rt), tail)
      && Render(Tokens("%u" + rest), args, i, rt) == Prepend(ToText(v, rt), tail)
  {
    LeadingPlaceholder(D, rest, args, i, rt);
    LeadingPlaceholder(I, rest, args, i, rt);
    LeadingPlaceholder(F, rest, args, i, rt);
    LeadingPlaceholder(U, rest, args, i, rt);
  }

  /**
   * `%x` and `%X` fold the case of the argument's radix-16 text (a number's
   * digits, any other value's text); with no argument left they throw.
   */
  lemma HexFoldsCase(rest: string, args: seq<Value>, i: nat, rt: Runtime)
    ensures var v, tail := ArgAt(args, i), Render(Tokens(rest), args, i + 1, rt);
      && (v.Str? ==> Render(Tokens("%x" + rest), args, i, rt) == Prepend(Lower(v.s), tail))
      && (v.Str? ==> Render(Tokens("%X" + rest), args, i, rt) == Prepend(Upper(v.s), tail))
      && (v.Num? ==> Render(Tokens("%x" + rest), args, i, rt) == Prepend(Lower(rt.hex(v.n)), tail))
      && (v.Num? ==> Render(Tokens("%X" + rest), args, i, rt) == Prepend(Upper(rt.hex(v.n)), tail))
    ensures i >= |args| ==> Render(Tokens("%x" + rest), args, i, rt) == Err(ToStringOfUndefined)
    ensures i >= |args| ==> Render(Tokens("%X" + rest), args, i, rt) == Err(ToStringOfUndefined)
  {
    LeadingPlaceholder(LowerX, rest, args, i, rt);
    LeadingPlaceholder(UpperX, rest, args, i, rt);
  }

  /** A null argument is substituted as-is, whatever the placeholder. */
  lemma NullAsIs(d: Directive, rt: Runtime)
    requires d != LF
    ensures Substitute(d, Null, rt) == Ok("null")
  {
  }

  /**
   * format: scan the template, copying text outside placeholders and
   * replacing each placeholder through the callback, whose cursor `i`
   * starts at the first argument after the template.
   */
  method Format(template: string, args: seq<Value>, rt: Runtime) returns (r: Result<string, FormatError>)
    ensures r == Formatted(template, args, rt)
  {
    var out := "";
    var k := 0;
    var i := 0;
    assert template[k..] == template;
    PrependEmpty(Formatted(template, args, rt));
    while k < |template|
      invariant 0 <= k <= |template|
      invariant Formatted(template, args, rt) == Prepend(out, Render(Tokens(template[k..]), args, i, rt))
      decreases |template| - k
    {
      var rest := template[k..];
      var ts := Tokens(rest);
      match MatchAt(rest)
      case None =>
        assert ts[0] == Text(rest[0]) && ts[1..] == Tokens(template[k + 1..]);
        PrependPrepend(out, [template[k]], Render(Tokens(template[k + 1..]), args, i, rt));
        out := out + [template[k]];
        k := k + 1;
      case Some(d) =>
        var n := |Spelling(d)|;
        assert ts[0] == Placeholder(d) && ts[1..] == Tokens(template[k + n..]);
        if d == LF {
          PrependPrepend(out, "f", Render(Tokens(template[k + n..]), args, i, rt));
          out := out + "f";
        } else {
          var sub := Substitute(d, ArgAt(args, i), rt);
          if sub.Err? {
            return Err(sub.error);
          }
          PrependPrepend(out, sub.value, Render(Tokens(template[k + n..]), args, i + 1, rt));
          out := out + sub.value;
          i := i + 1;
        }
        k := k + n;
    }
    assert template[k..] == [];
    assert out + "" == out;
    r := Ok(out);
  }
}
