/** How the Signup page turns a failed registration into the one line of text
    it shows. The server's reply body is a parsed JSON value. The text comes
    from JavaScript's `String(...)` or from `JSON.stringify`, both modelled
    here on that value. */
module SignupErrors {
  import opened Common
  import opened IsoDates

  /** A parsed JSON value. Numbers are integers here. An object lists its
      properties in JavaScript's property enumeration order (integer-like
      keys first, ascending, then the rest as inserted), one per key. */
  datatype Json =
    | JNull
    | JBool(b: bool)
    | JNum(n: int)
    | JStr(s: string)
    | JArr(items: seq<Json>)
    | JObj(fields: seq<Field>)

  datatype Field = Field(key: string, value: Json)

  /** JavaScript truthiness of a value. */
  predicate Truthy(v: Json) {
    match v
    case JNull => false
    case JBool(b) => b
    case JNum(n) => n != 0
    case JStr(s) => s != ""
    case JArr(_) => true
    case JObj(_) => true
  }

  function DigitChar(d: nat): (c: char)
    requires d < 10
    ensures IsDigit(c) && DigitValue(c) == d
  {
    ('0' as int + d) as char
  }

  /** The decimal text of a natural number, without leading zeros. */
  function NatText(n: nat): (r: string)
    ensures r != [] && AllDigits(r) && DecimalValue(r) == n
    ensures r[0] == '0' ==> r == "0"
    decreases n
  {
    if n < 10 then [DigitChar(n)]
    else
      var front := NatText(n / 10);
      var r := front + [DigitChar(n % 10)];
      assert r[..|r| - 1] == front;
      r
  }

  /** `String(n)` for an integer. */
  function IntText(n: int): (r: string)
    ensures r != []
    ensures n >= 0 ==> r == NatText(n)
    ensures n < 0 ==> r == "-" + NatText(-n)
  {
    if n < 0 then "-" + NatText(-n) else NatText(n)
  }

  /** `String(v)`: arrays join their items with commas, a `null` item giving
      the empty string; every object is `[object Object]`. */
  function Text(v: Json): string
    decreases v, 1, 0
  {
    match v
    case JNull => "null"
    case JBool(b) => if b then "true" else "false"
    case JNum(n) => IntText(n)
    case JStr(s) => s
    case JArr(items) => JoinFrom(v, 0)
    case JObj(_) => "[object Object]"
  }

  /** `items.slice(i).join(",")` for the items of array `v`. */
  function JoinFrom(v: Json, i: nat): string
    requires v.JArr? && i <= |v.items|
    decreases v, 0, |v.items| - i
  {
    if i == |v.items| then ""
    else
      var item := v.items[i];
      var t := if item.JNull? then "" else Text(item);
      if i + 1 == |v.items| then t else t + "," + JoinFrom(v, i + 1)
  }

  /** A truthy value other than an array never has empty text. */
  lemma TruthyTextNonEmpty(v: Json)
    requires Truthy(v) && !v.JArr?
    ensures Text(v) != ""
  {
  }

  function HexDigit(d: nat): (c: char)
    requires d < 16
  {
    if d < 10 then ('0' as int + d) as char else ('a' as int + d - 10) as char
  }

  function HexValue(c: char): int {
    if '0' <= c <= '9' then c as int - '0' as int
    else if 'a' <= c <= 'f' then c as int - 'a' as int + 10
    else -1
  }

  /** The escape `JSON.stringify` writes for one character of a string. */
  function EscapeChar(c: char): (r: string)
    ensures r != []
    ensures forall i :: 0 <= i < |r| ==> r[i] as int >= 0x20
  {
    if c == '\U{0008}' then "\\b"
    else if c == '\t' then "\\t"
    else if c == '\n' then "\\n"
    else if c == '\U{000C}' then "\\f"
    else if c == '\r' then "\\r"
    else if c == '"' then "\\\""
    else if c == '\\' then "\\\\"
    else if (c as int) < 0x20 then "\\u00" + [HexDigit(c as int / 16), HexDigit(c as int % 16)]
    else [c]
  }

  /** The body of the quoted form of `s`. */
  function Escape(s: string): (r: string)
    ensures forall i :: 0 <= i < |r| ==> r[i] as int >= 0x20
    decreases |s|
  {
    if s == [] then ""
    else
      var head := EscapeChar(s[0]);
      var rest := Escape(s[1..]);
      assert forall i :: |head| <= i < |head + rest| ==> (head + rest)[i] == rest[i - |head|];
      head + rest
  }

  /** Reads one escaped character at the front of `t`: the character and how
      many characters of `t` it took, or `None` for malformed text. */
  function UnescapeHead(t: string): (r: Option<(char, nat)>)
    requires t != []
    ensures r.Some? ==> 1 <= r.value.1 <= |t|
  {
    if t[0] != '\\' then Some((t[0], 1))
    else if |t| < 2 then None
    else if t[1] == 'b' then Some(('\U{0008}', 2))
    else if t[1] == 't' then Some(('\t', 2))
    else if t[1] == 'n' then Some(('\n', 2))
    else if t[1] == 'f' then Some(('\U{000C}', 2))
    else if t[1] == 'r' then Some(('\r', 2))
    else if t[1] == '"' then Some(('"', 2))
    else if t[1] == '\\' then Some(('\\', 2))
    else if t[1] == 'u' && |t| >= 6 && t[2] == '0' && t[3] == '0'
            && 0 <= HexValue(t[4]) < 2 && 0 <= HexValue(t[5]) then
      Some(((16 * HexValue(t[4]) + HexValue(t[5])) as char, 6))
    else None
  }

  /** Reads back the body of a quoted string (the `\u00XX` escapes are those
      of control characters). */
  function Unescape(t: string): (r: Option<string>)
    decreases |t|
  {
    if t == [] then Some("")
    else
      match UnescapeHead(t)
      case None => None
      case Some((c, k)) =>
        match Unescape(t[k..])
        case None => None
        case Some(rest) => Some([c] + rest)
  }

  lemma HexRoundTrip(d: nat)
    requires d < 16
    ensures HexValue(HexDigit(d)) == d
  {
  }

  /** One escaped character reads back as itself, whatever follows it. */
  lemma UnescapeHeadOfEscape(c: char, rest: string)
    ensures UnescapeHead(EscapeChar(c) + rest) == Some((c, |EscapeChar(c)|))
  {
    var t := EscapeChar(c) + rest;
    if (c as int) < 0x20 && c != '\U{0008}' && c != '\t' && c != '\n' && c != '\U{000C}' && c != '\r' {
      HexRoundTrip(c as int / 16);
      HexRoundTrip(c as int % 16);
      assert t[..6] == EscapeChar(c);
    } else {
      assert t[..|EscapeChar(c)|] == EscapeChar(c);
    }
  }

  /** The quoted form of a string reads back as that string. */
  lemma {:induction false} EscapeRoundTrip(s: string)
    ensures Unescape(Escape(s)) == Some(s)
    decreases |s|
  {
    if s != [] {
      var head, rest := EscapeChar(s[0]), Escape(s[1..]);
      var t := Escape(s);
      assert t == head + rest;
      UnescapeHeadOfEscape(s[0], rest);
      assert t[|head|..] == rest;
      EscapeRoundTrip(s[1..]);
      assert Unescape(t) == Some([s[0]] + s[1..]);
      assert [s[0]] + s[1..] == s;
    }
  }

  /** Text with no quote, backslash or control character is written as is. */
  lemma {:induction false} EscapePlainText(s: string)
    requires forall i :: 0 <= i < |s| ==> s[i] as int >= 0x20 && s[i] != '"' && s[i] != '\\'
    ensures Escape(s) == s
    decreases |s|
  {
    if s != [] {
      EscapePlainText(s[1..]);
      assert [s[0]] + s[1..] == s;
    }
  }

  function Quote(s: string): string {
    "\"" + Escape(s) + "\""
  }

  /** `JSON.stringify(v)`, without white space. */
  function Stringify(v: Json): (r: string)
    ensures r != []
    decreases v, 1, 0
  {
    match v
    case JNull => "null"
    case JBool(b) => if b then "true" else "false"
    case JNum(n) => IntText(n)
    case JStr(s) => Quote(s)
    case JArr(_) => "[" + ItemsFrom(v, 0) + "]"
    case JObj(_) => "{" + MembersFrom(v, 0) + "}"
  }

  function ItemsFrom(v: Json, i: nat): string
    requires v.JArr? && i <= |v.items|
    decreases v, 0, |v.items| - i
  {
    if i == |v.items| then ""
    else if i + 1 == |v.items| then Stringify(v.items[i])
    else Stringify(v.items[i]) + "," + ItemsFrom(v, i + 1)
  }

  function MembersFrom(v: Json, i: nat): string
    requires v.JObj? && i <= |v.fields|
    decreases v, 0, |v.fields| - i
  {
    if i == |v.fields| then ""
    else
      var f := v.fields[i];
      assert f.value < v by {
        assert f in v.fields;
      }
      var m := Quote(f.key) + ":" + Stringify(f.value);
      if i + 1 == |v.fields| then m else m + "," + MembersFrom(v, i + 1)
  }

  /** `resp.key`, where `None` is `undefined`: the value of the first property
      with that key of an object, and nothing for anything else. */
  function Prop(v: Json, key: string): (r: Option<Json>)
    ensures !v.JObj? ==> r.None?
    ensures r.Some? ==> v.JObj? && exists i :: 0 <= i < |v.fields| && v.fields[i] == Field(key, r.value)
    ensures v.JObj? && (forall i :: 0 <= i < |v.fields| ==> v.fields[i].key != key) ==> r.None?
    ensures v.JObj? ==> forall i :: FirstWithKey(v.fields, key, i) ==> r == Some(v.fields[i].value)
  {
    if v.JObj? then FieldOf(v.fields, key) else None
  }

  /** Index `i` holds the first field with that key. */
  predicate FirstWithKey(fs: seq<Field>, key: string, i: int) {
    0 <= i < |fs| && fs[i].key == key && forall j :: 0 <= j < i ==> fs[j].key != key
  }

  /** The property lookup in a list of fields: the value of the first field
      with the key, and nothing when no field has it. */
  function FieldOf(fs: seq<Field>, key: string): (r: Option<Json>)
    ensures r.Some? ==> exists i :: 0 <= i < |fs| && fs[i] == Field(key, r.value)
    ensures (forall i :: 0 <= i < |fs| ==> fs[i].key != key) ==> r.None?
    ensures forall i :: FirstWithKey(fs, key, i) ==> r == Some(fs[i].value)
    decreases |fs|
  {
    if fs == [] then None
    else if fs[0].key == key then Some(fs[0].value)
    else
      var r := FieldOf(fs[1..], key);
      assert r.Some? ==> exists i :: 0 <= i < |fs| && fs[i] == Field(key, r.value) by {
        if r.Some? {
          var i :| 0 <= i < |fs[1..]| && fs[1..][i] == Field(key, r.value);
          assert fs[i + 1] == fs[1..][i];
        }
      }
      assert forall i :: FirstWithKey(fs, key, i) ==> r == Some(fs[i].value) by {
        forall i | FirstWithKey(fs, key, i) ensures r == Some(fs[i].value) {
          assert FirstWithKey(fs[1..], key, i - 1);
        }
      }
      r
  }

  /** `if (resp.key)`: the property exists and is truthy. */
  predicate Present(o: Option<Json>) {
    o.Some? && Truthy(o.value)
  }

  /** `Array.isArray(x) ? String(x[0]) : String(x)`; the first item of an
      empty array is `undefined`. */
  function FieldText(x: Json): string {
    if x.JArr? then (if x.items == [] then "undefined" else Text(x.items[0])) else Text(x)
  }

  const GenericMessage := "Sign up failed. Please try again."

  /** The message `onSubmit` shows for a failed registration, given the reply
      body (`None` when there is no response or no body). */
  function ErrorMessage(resp: Option<Json>): (r: string)
    ensures resp.None? ==> r == GenericMessage
    ensures resp.Some? && !Truthy(resp.value) ==> r == GenericMessage
    ensures resp.Some? && resp.value.JStr? && resp.value.s != "" ==> r == resp.value.s
    ensures resp.Some? && Truthy(resp.value) && !resp.value.JStr? && !resp.value.JObj? ==>
      r == Stringify(resp.value)
  {
    if resp.None? || !Truthy(resp.value) then GenericMessage
    else
      var body := resp.value;
      if body.JStr? then body.s
      else if Present(Prop(body, "username")) then FieldText(Prop(body, "username").value)
      else if Present(Prop(body, "password")) then FieldText(Prop(body, "password").value)
      else if Present(Prop(body, "detail")) then Text(Prop(body, "detail").value)
      else Stringify(body)
  }

  /** A `username` error wins over every other field. */
  lemma UsernameErrorWins(fs: seq<Field>, x: Json)
    requires FieldOf(fs, "username") == Some(x) && Truthy(x)
    ensures ErrorMessage(Some(JObj(fs))) == FieldText(x)
  {
  }

  /** A `password` error is shown when there is no `username` error. */
  lemma PasswordErrorNext(fs: seq<Field>, x: Json)
    requires !Present(FieldOf(fs, "username"))
    requires FieldOf(fs, "password") == Some(x) && Truthy(x)
    ensures ErrorMessage(Some(JObj(fs))) == FieldText(x)
  {
  }

  /** A `detail` message comes third. */
  lemma DetailNext(fs: seq<Field>, x: Json)
    requires !Present(FieldOf(fs, "username")) && !Present(FieldOf(fs, "password"))
    requires FieldOf(fs, "detail") == Some(x) && Truthy(x)
    ensures ErrorMessage(Some(JObj(fs))) == Text(x)
  {
  }

  /** Any other object is shown as its JSON text. */
  lemma OtherObjectAsJson(fs: seq<Field>)
    requires !Present(FieldOf(fs, "username")) && !Present(FieldOf(fs, "password"))
    requires !Present(FieldOf(fs, "detail"))
    ensures ErrorMessage(Some(JObj(fs))) == Stringify(JObj(fs))
  {
  }

  /** The usual field error, `{"username": ["<message>", ...], ...}`, shows its
      first message verbatim. */
  lemma FieldErrorShownVerbatim(msg: string, more: seq<Json>, others: seq<Field>)
    requires msg != ""
    ensures ErrorMessage(Some(JObj([Field("username", JArr([JStr(msg)] + more))] + others))) == msg
  {
  }

  /** A `password` list shows its first message when there is no `username`
      key. */
  lemma PasswordListShownVerbatim(msg: string, more: seq<Json>, others: seq<Field>)
    requires msg != ""
    requires forall i :: 0 <= i < |others| ==> others[i].key != "username"
    ensures ErrorMessage(Some(JObj([Field("password", JArr([JStr(msg)] + more))] + others))) == msg
  {
    var fs := [Field("password", JArr([JStr(msg)] + more))] + others;
    assert forall i :: 0 <= i < |fs| ==> fs[i].key != "username" by {
      forall i | 0 <= i < |fs| ensures fs[i].key != "username" {
        if i > 0 {
          assert fs[i] == others[i - 1];
        }
      }
    }
  }

  /** The message is empty only when the field it comes from holds an array
      (whose first item, or whose joined items, read as the empty string); a
      non-array reply never leaves the page without a message. */
  lemma EmptyMessageOnlyFromArrays(resp: Option<Json>)
    requires ErrorMessage(resp) == ""
    ensures resp.Some? && resp.value.JObj?
    ensures exists i :: 0 <= i < |resp.value.fields| && resp.value.fields[i].value.JArr?
  {
    var body := resp.value;
    if Present(Prop(body, "username")) {
      var x := Prop(body, "username").value;
      if !x.JArr? {
        TruthyTextNonEmpty(x);
      }
    } else if Present(Prop(body, "password")) {
      var x := Prop(body, "password").value;
      if !x.JArr? {
        TruthyTextNonEmpty(x);
      }
    } else if Present(Prop(body, "detail")) {
      var x := Prop(body, "detail").value;
      if !x.JArr? {
        TruthyTextNonEmpty(x);
      }
    }
  }

  /** The case that lemma allows does occur: `{"username": [""]}` leaves the
      message empty, and the page shows no error box. */
  lemma EmptyFirstItemGivesEmptyMessage()
    ensures ErrorMessage(Some(JObj([Field("username", JArr([JStr("")]))]))) == ""
  {
  }

  /** An empty array is truthy, so `{"username": []}` shows "undefined". */
  lemma EmptyArrayShowsUndefined()
    ensures ErrorMessage(Some(JObj([Field("username", JArr([]))]))) == "undefined"
  {
  }
}
