/** JSON as the proxy prints it. */
module Json {
  import Decimal
  import opened Sse

  /** A document the proxy builds itself; the members of a `Dict` are listed in the
      sorted key order in which Go's encoder prints a map. */
  datatype Doc =
    | Text(text: string)
    | Number(number: int)
    | List(items: seq<Doc>)
    | Dict(members: seq<(string, Doc)>)

  function HexDigit(d: nat): char
    requires d < 16
  {
    ['0', '1', '2', '3', '4', '5', '6', '7', '8', '9', 'a', 'b', 'c', 'd', 'e', 'f'][d]
  }

  /** Go's string escaping, which also escapes what is unsafe inside HTML. */
  function Escape(c: char): string {
    if c == '"' then "\\\""
    else if c == '\\' then "\\\\"
    else if c == '\n' then "\\n"
    else if c == '\r' then "\\r"
    else if c == '\t' then "\\t"
    else if c as int == 8 then "\\b"
    else if c as int == 12 then "\\f"
    else if c as int < 32 || c in {'<', '>', '&'} then
      "\\u00" + [HexDigit(c as int / 16 % 16), HexDigit(c as int % 16)]
    else if c as int == 0x2028 then "\\u2028"
    else if c as int == 0x2029 then "\\u2029"
    else [c]
  }

  function EscapeAll(s: string): string {
    if s == "" then "" else Escape(s[0]) + EscapeAll(s[1..])
  }

  function Quote(s: string): string {
    "\"" + EscapeAll(s) + "\""
  }

  function Marshal(doc: Doc): string
    decreases doc, 1, 0
  {
    match doc
    case Text(s) => Quote(s)
    case Number(n) => Decimal.PrintInt(n)
    case List(items) => "[" + MarshalItems(doc, items) + "]"
    case Dict(members) => "{" + MarshalMembers(doc, members) + "}"
  }

  function MarshalItems(doc: Doc, items: seq<Doc>): string
    requires forall i | 0 <= i < |items| :: items[i] < doc
    decreases doc, 0, |items|
  {
    if items == [] then ""
    else Marshal(items[0]) + (if |items| == 1 then "" else ",") + MarshalItems(doc, items[1..])
  }

  function MarshalMembers(doc: Doc, members: seq<(string, Doc)>): string
    requires forall i | 0 <= i < |members| :: members[i].1 < doc
    decreases doc, 0, |members|
  {
    if members == [] then ""
    else
      Quote(members[0].0) + ":" + Marshal(members[0].1) + (if |members| == 1 then "" else ",")
      + MarshalMembers(doc, members[1..])
  }

  lemma OneLineConcat(a: string, b: string)
    requires OneLine(a) && OneLine(b)
    ensures OneLine(a + b)
  {
  }

  lemma {:induction false} EscapeIsOneLine(s: string)
    ensures OneLine(EscapeAll(s))
    decreases |s|
  {
    if s != "" {
      EscapeIsOneLine(s[1..]);
      assert OneLine(Escape(s[0]));
      OneLineConcat(Escape(s[0]), EscapeAll(s[1..]));
    }
  }

  lemma QuoteIsOneLine(s: string)
    ensures OneLine(Quote(s))
  {
    EscapeIsOneLine(s);
  }

  lemma DigitsAreOneLine(n: int)
    ensures OneLine(Decimal.PrintInt(n))
  {
    var s := Decimal.Print(if n < 0 then -n else n);
    assert forall i | 0 <= i < |s| :: Decimal.IsDigit(s[i]);
  }

  /** Whatever message a document carries, it prints on one line. */
  lemma {:induction false} MarshalIsOneLine(doc: Doc)
    ensures OneLine(Marshal(doc))
    decreases doc, 1, 0
  {
    match doc
    case Text(s) => QuoteIsOneLine(s);
    case Number(n) => DigitsAreOneLine(n);
    case List(items) => ItemsAreOneLine(doc, items);
    case Dict(members) => MembersAreOneLine(doc, members);
  }

  lemma {:induction false} ItemsAreOneLine(doc: Doc, items: seq<Doc>)
    requires forall i | 0 <= i < |items| :: items[i] < doc
    ensures OneLine(MarshalItems(doc, items))
    decreases doc, 0, |items|
  {
    if items != [] {
      MarshalIsOneLine(items[0]);
      ItemsAreOneLine(doc, items[1..]);
    }
  }

  lemma {:induction false} MembersAreOneLine(doc: Doc, members: seq<(string, Doc)>)
    requires forall i | 0 <= i < |members| :: members[i].1 < doc
    ensures OneLine(MarshalMembers(doc, members))
    decreases doc, 0, |members|
  {
    if members != [] {
      QuoteIsOneLine(members[0].0);
      MarshalIsOneLine(members[0].1);
      MembersAreOneLine(doc, members[1..]);
    }
  }
}
