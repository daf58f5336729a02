/** JSON values as the routes receive them (`await req.json()`) and as the
    buses send them (`JSON.stringify`). Numbers are integers in this model. */
module Json {
  import opened Wrappers
  import opened Text

  datatype Value =
    | JNull
    | JBool(b: bool)
    | JNum(n: int)
    | JStr(s: string)
    | JArr(items: seq<Value>)
    | JObj(members: seq<Member>)

  /** One `key: value` pair of an object, in insertion order. */
  datatype Member = Member(key: string, value: Value)

  /** JavaScript truthiness (`!!v`) of a parsed JSON value; a missing
      property (`undefined`) is falsy too. */
  predicate Truthy(v: Option<Value>) {
    match v
    case None => false
    case Some(JNull) => false
    case Some(JBool(b)) => b
    case Some(JNum(n)) => n != 0
    case Some(JStr(s)) => s != ""
    case Some(JArr(_)) => true
    case Some(JObj(_)) => true
  }

  /** Value of the last member named `key` (JSON.parse keeps the last of
      duplicate keys), or None when there is none. */
  function Lookup(members: seq<Member>, key: string): (r: Option<Value>)
    ensures r.Some? <==> exists i :: 0 <= i < |members| && members[i].key == key
    ensures r.Some? ==> exists i :: 0 <= i < |members| && members[i] == Member(key, r.value)
  {
    if members == [] then None
    else
      var last := members[|members| - 1];
      if last.key == key then Some(last.value)
      else
        var r := Lookup(members[..|members| - 1], key);
        assert forall i :: 0 <= i < |members| - 1 ==> members[..|members| - 1][i] == members[i];
        r
  }

  /** In an object whose only member named `key` is member `i`, the
      lookup finds that member's value. */
  lemma {:induction false} LookupUnique(members: seq<Member>, i: nat, key: string)
    requires i < |members| && members[i].key == key
    requires forall j :: 0 <= j < |members| && j != i ==> members[j].key != key
    ensures Lookup(members, key) == Some(members[i].value)
  {
    if i < |members| - 1 {
      var init := members[..|members| - 1];
      assert forall j :: 0 <= j < |init| ==> init[j] == members[j];
      LookupUnique(init, i, key);
    }
  }

  /** Property access `body.key` on a parsed body that is not `null`:
      objects are searched, every other value has no such property. */
  function Property(body: Value, key: string): Option<Value> {
    match body
    case JObj(ms) => Lookup(ms, key)
    case _ => None
  }

  predicate NoLineBreak(s: string) {
    forall i :: 0 <= i < |s| ==> s[i] != '\n' && s[i] != '\r'
  }

  function HexDigit(d: nat): char
    requires d < 16
  {
    "0123456789abcdef"[d]
  }

  /** How JSON.stringify writes one character inside a string literal. */
  function EscapeChar(c: char): (r: string)
    ensures NoLineBreak(r)
  {
    if c == '"' then "\\\""
    else if c == '\\' then "\\\\"
    else if c == '\U{0008}' then "\\b"
    else if c == '\U{000C}' then "\\f"
    else if c == '\n' then "\\n"
    else if c == '\r' then "\\r"
    else if c == '\t' then "\\t"
    else if c < ' ' then "\\u00" + [HexDigit(c as int / 16), HexDigit(c as int % 16)]
    else [c]
  }

  lemma NoLineBreakAppend(a: string, b: string)
    requires NoLineBreak(a) && NoLineBreak(b)
    ensures NoLineBreak(a + b)
  {
    forall i | 0 <= i < |a + b| ensures (a + b)[i] != '\n' && (a + b)[i] != '\r' {
      if i < |a| { assert (a + b)[i] == a[i]; } else { assert (a + b)[i] == b[i - |a|]; }
    }
  }

  function Escape(s: string): (r: string)
    ensures NoLineBreak(r)
  {
    if s == [] then []
    else
      var r := EscapeChar(s[0]) + Escape(s[1..]);
      NoLineBreakAppend(EscapeChar(s[0]), Escape(s[1..]));
      r
  }

  /** A JSON string literal. */
  function Quote(s: string): (r: string)
    ensures NoLineBreak(r)
  {
    NoLineBreakAppend("\"", Escape(s));
    NoLineBreakAppend("\"" + Escape(s), "\"");
    "\"" + Escape(s) + "\""
  }

  /** Comma-separated concatenation. */
  function Join(parts: seq<string>): string {
    if parts == [] then ""
    else if |parts| == 1 then parts[0]
    else parts[0] + "," + Join(parts[1..])
  }

  /** `JSON.stringify(v)` with no indentation. */
  function Stringify(v: Value): string
    decreases v
  {
    match v
    case JNull => "null"
    case JBool(b) => if b then "true" else "false"
    case JNum(n) => IntToString(n)
    case JStr(s) => Quote(s)
    case JArr(items) =>
      "[" + Join(seq(|items|, i requires 0 <= i < |items| => Stringify(items[i]))) + "]"
    case JObj(ms) =>
      "{" + Join(seq(|ms|, i requires 0 <= i < |ms| => Quote(ms[i].key) + ":" + Stringify(ms[i].value))) + "}"
  }

  lemma {:induction false} JoinNoLineBreak(parts: seq<string>)
    requires forall i :: 0 <= i < |parts| ==> NoLineBreak(parts[i])
    ensures NoLineBreak(Join(parts))
  {
    if |parts| > 1 {
      JoinNoLineBreak(parts[1..]);
      NoLineBreakAppend(parts[0], ",");
      NoLineBreakAppend(parts[0] + ",", Join(parts[1..]));
    }
  }

  /** JSON.stringify never emits a raw line break: line feeds and carriage
      returns inside strings are escaped, and no whitespace is inserted. */
  lemma {:induction false} StringifyNoLineBreak(v: Value)
    ensures NoLineBreak(Stringify(v))
    decreases v
  {
    match v
    case JNull =>
    case JBool(b) =>
    case JNum(n) =>
    case JStr(s) =>
    case JArr(items) =>
      var parts := seq(|items|, i requires 0 <= i < |items| => Stringify(items[i]));
      forall i | 0 <= i < |items| ensures NoLineBreak(parts[i]) {
        StringifyNoLineBreak(items[i]);
      }
      JoinNoLineBreak(parts);
      NoLineBreakAppend("[", Join(parts));
      NoLineBreakAppend("[" + Join(parts), "]");
    case JObj(ms) =>
      var parts := seq(|ms|, i requires 0 <= i < |ms| => Quote(ms[i].key) + ":" + Stringify(ms[i].value));
      forall i | 0 <= i < |ms| ensures NoLineBreak(parts[i]) {
        StringifyNoLineBreak(ms[i].value);
        NoLineBreakAppend(Quote(ms[i].key), ":");
        NoLineBreakAppend(Quote(ms[i].key) + ":", Stringify(ms[i].value));
      }
      JoinNoLineBreak(parts);
      NoLineBreakAppend("{", Join(parts));
      NoLineBreakAppend("{" + Join(parts), "}");
  }
}
