/** JavaScript values, strings and promise outcomes as far as the client layer uses them.
    Numbers are integers here: no module of the core does arithmetic that depends on fractions
    except the price division, which the cart module keeps in cents. */
module Values {

  datatype Option<+T> = None | Some(value: T)

  /** A JSON-like JavaScript value. */
  datatype Val =
    | Undefined
    | Null
    | Bool(b: bool)
    | Num(n: int)
    | Str(s: string)
    | Obj(fields: map<string, Val>)
    | Arr(items: seq<Val>)

  /** JavaScript truthiness: objects and arrays are always truthy, even when empty. */
  predicate Truthy(v: Val)
  {
    match v
    case Undefined => false
    case Null => false
    case Bool(b) => b
    case Num(n) => n != 0
    case Str(s) => s != ""
    case Obj(_) => true
    case Arr(_) => true
  }

  /** The business envelope `{ code, message, success, data }` that the server returns.
      `message` is None when the field is absent; `success` is true only when the field is `true`. */
  datatype Envelope = Envelope(code: Option<int>, message: Option<string>, success: bool, data: Val)

  /** What became of a promise: fulfilled with a value, rejected with a reason whose `message`
      property may be absent, or never settled. */
  datatype Fate<+T> = Fulfilled(value: T) | Rejected(message: Option<string>) | Pending

  /** `message || fallback` on an optional string message. */
  function MessageOr(message: Option<string>, fallback: string): (r: string)
    ensures r == fallback || (message.Some? && r == message.value)
    ensures r != "" || fallback == ""
    ensures message.Some? && message.value != "" ==> r == message.value
  {
    if message.Some? && message.value != "" then message.value else fallback
  }

  /** A parameter with a default value: the argument when one is passed, else the default. */
  function ArgOr<T>(arg: Option<T>, default: T): T
  {
    if arg.Some? then arg.value else default
  }

  /** `String.prototype.startsWith`. */
  predicate StartsWith(s: string, prefix: string)
  {
    |prefix| <= |s| && s[..|prefix|] == prefix
  }

  /** Appending text keeps every prefix. */
  lemma StartsWithAppend(s: string, t: string, prefix: string)
    requires StartsWith(s, prefix)
    ensures StartsWith(s + t, prefix)
  {
    assert (s + t)[..|prefix|] == s[..|prefix|];
  }

  /** `String.prototype.includes`. */
  predicate Contains(s: string, sub: string)
    decreases |s|
  {
    StartsWith(s, sub) || (s != [] && Contains(s[1..], sub))
  }

  /** Whatever contains a text contains each of its prefixes. */
  lemma {:induction false} ContainsShorter(s: string, sub: string, pre: string)
    requires pre <= sub
    ensures Contains(s, sub) ==> Contains(s, pre)
    decreases |s|
  {
    if StartsWith(s, sub) {
      assert s[..|pre|] == s[..|sub|][..|pre|];
    } else if s != [] {
      ContainsShorter(s[1..], sub, pre);
    }
  }

  lemma {:induction false} ContainsAt(s: string, sub: string, i: nat)
    requires i + |sub| <= |s| && s[i..i + |sub|] == sub
    ensures Contains(s, sub)
    decreases i
  {
    if i == 0 {
      assert s[..|sub|] == sub;
    } else {
      assert s[1..][i - 1..i - 1 + |sub|] == s[i..i + |sub|];
      ContainsAt(s[1..], sub, i - 1);
    }
  }

  /** A string that is a prefix of another is contained in it, and so is one that is contained in a suffix. */
  lemma {:induction false} ContainsInPrefix(pre: string, rest: string, sub: string)
    requires Contains(pre, sub)
    ensures Contains(pre + rest, sub)
    decreases |pre|
  {
    if StartsWith(pre, sub) {
      assert (pre + rest)[..|sub|] == pre[..|sub|];
    } else {
      assert (pre + rest)[1..] == pre[1..] + rest;
      ContainsInPrefix(pre[1..], rest, sub);
    }
  }

  /** `parts.join(sep)`. */
  function Join(parts: seq<string>, sep: string): (r: string)
    ensures parts == [] ==> r == ""
    ensures parts != [] ==> parts[0] <= r
  {
    if parts == [] then ""
    else if |parts| == 1 then parts[0]
    else parts[0] + sep + Join(parts[1..], sep)
  }

  /** `s.split(sep)` for a one-character separator. */
  function Split(s: string, sep: char): (r: seq<string>)
    ensures |r| >= 1
    decreases |s|
  {
    if s == [] then [""]
    else if s[0] == sep then [""] + Split(s[1..], sep)
    else
      var rest := Split(s[1..], sep);
      [[s[0]] + rest[0]] + rest[1..]
  }

  lemma {:induction false} SplitPart(p: string, sep: char)
    requires sep !in p
    ensures Split(p, sep) == [p]
    decreases |p|
  {
    if p != [] {
      SplitPart(p[1..], sep);
      assert [p[0]] + p[1..] == p;
    }
  }

  lemma {:induction false} SplitPartThenRest(p: string, sep: char, t: string)
    requires sep !in p
    ensures Split(p + [sep] + t, sep) == [p] + Split(t, sep)
    decreases |p|
  {
    var s := p + [sep] + t;
    if p == [] {
      assert s[0] == sep && s[1..] == t;
    } else {
      assert s[0] == p[0] && s[1..] == p[1..] + [sep] + t;
      SplitPartThenRest(p[1..], sep, t);
      assert [p[0]] + p[1..] == p;
    }
  }

  /** Splitting the joined text at the separator gives the parts back, when no part holds the
      separator. */
  lemma {:induction false} SplitJoin(parts: seq<string>, sep: char)
    requires parts != []
    requires forall i :: 0 <= i < |parts| ==> sep !in parts[i]
    ensures Split(Join(parts, [sep]), sep) == parts
    decreases |parts|
  {
    if |parts| == 1 {
      SplitPart(parts[0], sep);
    } else {
      SplitJoin(parts[1..], sep);
      SplitPartThenRest(parts[0], sep, Join(parts[1..], [sep]));
      assert [parts[0]] + parts[1..] == parts;
    }
  }

  function NatToString(n: nat): (s: string)
    ensures |s| > 0
    decreases n
  {
    var d := "0123456789"[n % 10];
    if n < 10 then [d] else NatToString(n / 10) + [d]
  }

  /** `String(n)` for an integer. */
  function IntToString(n: int): string
  {
    if n < 0 then "-" + NatToString(-n) else NatToString(n)
  }

  /** `String(v)`: the conversion a template literal or `String(...)` applies. */
  function ToJsString(v: Val): string
    decreases v
  {
    match v
    case Undefined => "undefined"
    case Null => "null"
    case Bool(b) => if b then "true" else "false"
    case Num(n) => IntToString(n)
    case Str(s) => s
    case Obj(_) => "[object Object]"
    case Arr(items) =>
      // Array.prototype.join writes null and undefined elements as empty strings
      Join(seq(|items|, i requires 0 <= i < |items| =>
                 if items[i].Undefined? || items[i].Null? then "" else ToJsString(items[i])), ",")
  }
}
