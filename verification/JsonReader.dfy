/**
 Reading back what the proxy prints as JSON: a reader of its own, the member lookup a
 client does on what it has read, and the law that the two undo `Json.Marshal`.
 */
module JsonReader {
  import opened Options
  import opened Decimal
  import opened Json

  // ------------------------------------------------------------------------- strings

  function HexValue(c: char): Option<nat> {
    if '0' <= c <= '9' then Some(c as int - '0' as int)
    else if 'a' <= c <= 'f' then Some(c as int - 'a' as int + 10)
    else if 'A' <= c <= 'F' then Some(c as int - 'A' as int + 10)
    else None
  }

  /** The character behind a `\u` and four digits; half a surrogate pair is none. */
  function HexChar(s: string): Option<char> {
    if |s| < 4 || HexValue(s[0]).None? || HexValue(s[1]).None? || HexValue(s[2]).None? || HexValue(s[3]).None? then None
    else
      var high, low := 16 * HexValue(s[0]).value + HexValue(s[1]).value, 16 * HexValue(s[2]).value + HexValue(s[3]).value;
      var n := 256 * high + low;
      if n < 0xD800 || 0xE000 <= n < 0x10000 then Some(n as char) else None
  }

  /** The character at the front of a string's inside, and what follows it. */
  function ReadChar(s: string): (r: Option<(char, string)>)
    ensures r.Some? ==> |r.value.1| < |s|
  {
    if s == "" || s[0] == '"' then None
    else if s[0] != '\\' then Some((s[0], s[1..]))
    else if |s| < 2 then None
    else if s[1] == 'u' then
      match HexChar(s[2..])
      case Some(c) => Some((c, s[6..]))
      case None => None
    else
      match s[1]
      case '"' => Some(('"', s[2..]))
      case '\\' => Some(('\\', s[2..]))
      case '/' => Some(('/', s[2..]))
      case 'b' => Some((8 as char, s[2..]))
      case 'f' => Some((12 as char, s[2..]))
      case 'n' => Some(('\n', s[2..]))
      case 'r' => Some(('\r', s[2..]))
      case 't' => Some(('\t', s[2..]))
      case _ => None
  }

  /** The rest of a string up to its closing quote, and what follows that. */
  function ReadText(s: string): (r: Option<(string, string)>)
    ensures r.Some? ==> |r.value.1| < |s|
    decreases |s|
  {
    if s != "" && s[0] == '"' then Some(("", s[1..]))
    else
      match ReadChar(s)
      case None => None
      case Some((c, rest)) =>
        match ReadText(rest)
        case None => None
        case Some((text, after)) => Some(([c] + text, after))
  }

  // -------------------------------------------------------------------------- values

  function DigitsIn(s: string): (k: nat)
    ensures k <= |s| && AllDigits(s[..k])
    ensures k < |s| ==> !IsDigit(s[k])
  {
    if s == "" || !IsDigit(s[0]) then 0
    else
      var k := DigitsIn(s[1..]);
      assert forall i | 0 < i < 1 + k :: s[i] == s[1..][..k][i - 1];
      1 + k
  }

  function ReadNumber(s: string): (r: Option<(Doc, string)>)
    ensures r.Some? ==> |r.value.1| < |s|
  {
    var negative := s != "" && s[0] == '-';
    var digits := if negative then s[1..] else s;
    var k := DigitsIn(digits);
    if k == 0 then None
    else
      var magnitude: int := Value(digits[..k]);
      Some((Number(if negative then -magnitude else magnitude), digits[k..]))
  }

  function ReadValue(s: string): (r: Option<(Doc, string)>)
    ensures r.Some? ==> |r.value.1| < |s|
    decreases |s|, 0
  {
    if s == "" then None
    else if s[0] == '"' then
      match ReadText(s[1..])
      case Some((text, rest)) => Some((Text(text), rest))
      case None => None
    else if s[0] == '[' then
      if |s| > 1 && s[1] == ']' then Some((List([]), s[2..]))
      else
        match ReadItems(s[1..])
        case Some((items, rest)) => Some((List(items), rest))
        case None => None
    else if s[0] == '{' then
      if |s| > 1 && s[1] == '}' then Some((Dict([]), s[2..]))
      else
        match ReadMembers(s[1..])
        case Some((members, rest)) => Some((Dict(members), rest))
        case None => None
    else ReadNumber(s)
  }

  function ReadItems(s: string): (r: Option<(seq<Doc>, string)>)
    ensures r.Some? ==> |r.value.1| < |s|
    decreases |s|, 1
  {
    match ReadValue(s)
    case None => None
    case Some((item, rest)) =>
      if rest == "" then None
      else if rest[0] == ']' then Some(([item], rest[1..]))
      else if rest[0] != ',' then None
      else
        match ReadItems(rest[1..])
        case None => None
        case Some((items, after)) => Some(([item] + items, after))
  }

  function ReadKey(s: string): (r: Option<(string, string)>)
    ensures r.Some? ==> |r.value.1| < |s|
  {
    if s == "" || s[0] != '"' then None
    else
      match ReadText(s[1..])
      case None => None
      case Some((key, rest)) => if rest != "" && rest[0] == ':' then Some((key, rest[1..])) else None
  }

  function ReadMembers(s: string): (r: Option<(seq<(string, Doc)>, string)>)
    ensures r.Some? ==> |r.value.1| < |s|
    decreases |s|, 1
  {
    match ReadKey(s)
    case None => None
    case Some((key, t)) =>
      match ReadValue(t)
      case None => None
      case Some((value, rest)) =>
        if rest == "" then None
        else if rest[0] == '}' then Some(([(key, value)], rest[1..]))
        else if rest[0] != ',' then None
        else
          match ReadMembers(rest[1..])
          case None => None
          case Some((members, after)) => Some(([(key, value)] + members, after))
  }

  /** The document that a whole text is. */
  function Read(s: string): Option<Doc> {
    match ReadValue(s)
    case Some((doc, rest)) => if rest == "" then Some(doc) else None
    case None => None
  }

  // ---------------------------------------------------------------- strings read back

  lemma HexReadBack(d: nat)
    requires d < 16
    ensures HexValue(HexDigit(d)) == Some(d)
  {
  }

  lemma ShortEscapeReadBack(c: char, more: string)
    requires c in {'"', '\\', '\n', '\r', '\t'} || c as int == 8 || c as int == 12
    ensures ReadChar(Escape(c) + more) == Some((c, more))
  {
    assert |Escape(c)| == 2;
    assert (Escape(c) + more)[..2] == Escape(c) && (Escape(c) + more)[2..] == more;
  }

  lemma LongEscapeReadBack(c: char, more: string)
    requires |Escape(c)| == 6
    ensures ReadChar(Escape(c) + more) == Some((c, more))
  {
    var e, s := Escape(c), Escape(c) + more;
    assert s[..6] == e && s[6..] == more;
    assert s[2..][0] == e[2] && s[2..][1] == e[3] && s[2..][2] == e[4] && s[2..][3] == e[5];
    LongEscapeDigits(c, s[2..]);
  }

  lemma HexPairReadBack(s: string, high: nat, low: nat)
    requires high < 16 && low < 16 && |s| >= 4
    requires s[0] == '0' && s[1] == '0' && s[2] == HexDigit(high) && s[3] == HexDigit(low)
    ensures HexChar(s) == Some((16 * high + low) as char)
  {
    HexReadBack(high);
    HexReadBack(low);
  }

  lemma HexPairOf(n: nat)
    requires n < 128
    ensures n == 16 * (n / 16 % 16) + n % 16
  {
  }

  lemma LongEscapeDigits(c: char, s: string)
    requires |Escape(c)| == 6 && |s| >= 4
    requires s[0] == Escape(c)[2] && s[1] == Escape(c)[3] && s[2] == Escape(c)[4] && s[3] == Escape(c)[5]
    ensures HexChar(s) == Some(c) && Escape(c)[0] == '\\' && Escape(c)[1] == 'u'
  {
    if c as int == 0x2028 || c as int == 0x2029 {
      assert HexValue(s[0]) == HexValue(s[2]) == Some(2) && HexValue(s[1]) == Some(0);
    } else {
      HexPairOf(c as int);
      HexPairReadBack(s, c as int / 16 % 16, c as int % 16);
    }
  }

  lemma EscapeReadBack(c: char, more: string)
    ensures Escape(c) != "" && Escape(c)[0] != '"'
    ensures ReadChar(Escape(c) + more) == Some((c, more))
  {
    if |Escape(c)| == 1 {
      assert ([c] + more)[1..] == more;
    } else if |Escape(c)| == 2 {
      ShortEscapeReadBack(c, more);
    } else {
      LongEscapeReadBack(c, more);
    }
  }

  lemma Grouped(a: string, b: string, c: string)
    ensures (a + b) + c == a + (b + c)
  {
  }

  lemma {:induction false} TextReadBack(text: string, rest: string)
    ensures ReadText(EscapeAll(text) + ("\"" + rest)) == Some((text, rest))
    decreases |text|
  {
    if text == "" {
      assert EscapeAll(text) + ("\"" + rest) == "\"" + rest;
      assert ("\"" + rest)[1..] == rest;
    } else {
      var more := EscapeAll(text[1..]) + ("\"" + rest);
      Grouped(Escape(text[0]), EscapeAll(text[1..]), "\"" + rest);
      EscapeReadBack(text[0], more);
      TextReadBack(text[1..], rest);
      assert (Escape(text[0]) + more)[0] == Escape(text[0])[0];
      assert [text[0]] + text[1..] == text;
    }
  }

  lemma QuoteReadBack(text: string, rest: string)
    ensures (Quote(text) + rest)[0] == '"'
    ensures ReadText((Quote(text) + rest)[1..]) == Some((text, rest))
  {
    assert (Quote(text) + rest)[1..] == EscapeAll(text) + ("\"" + rest);
    TextReadBack(text, rest);
  }

  // ---------------------------------------------------------------- numbers read back

  predicate EndsNumber(rest: string) {
    rest == "" || !IsDigit(rest[0])
  }

  lemma {:induction false} DigitsInNumber(s: string, rest: string)
    requires AllDigits(s) && EndsNumber(rest)
    ensures DigitsIn(s + rest) == |s|
    decreases |s|
  {
    if s == "" {
      assert s + rest == rest;
    } else {
      assert (s + rest)[1..] == s[1..] + rest;
      DigitsInNumber(s[1..], rest);
    }
  }

  lemma NumberReadBack(n: int, rest: string)
    requires EndsNumber(rest)
    ensures var s := PrintInt(n) + rest;
            s != "" && s[0] !in {'"', '[', '{'} && ReadNumber(s) == Some((Number(n), rest))
  {
    var digits := Print(if n < 0 then -n else n);
    DigitsInNumber(digits, rest);
    ValueOfPrint(if n < 0 then -n else n);
    assert IsDigit(digits[0]);
    assert (digits + rest)[..|digits|] == digits && (digits + rest)[|digits|..] == rest;
    if n < 0 {
      assert ("-" + digits + rest)[1..] == digits + rest;
    }
  }

  // ---------------------------------------------------------------- documents read back

  /** Printing loses nothing: whatever follows, the reader gets the document back. */
  lemma {:induction false} ValueReadBack(doc: Doc, rest: string)
    requires EndsNumber(rest)
    ensures ReadValue(Marshal(doc) + rest) == Some((doc, rest))
    decreases doc, 1, 0
  {
    match doc
    case Text(text) => QuoteReadBack(text, rest);
    case Number(n) => NumberReadBack(n, rest);
    case List(items) =>
      if items != [] {
        ItemsReadBack(doc, items, rest);
        ListOpens(doc, items, rest);
      } else {
        EmptyOpens("[", "]", rest);
      }
    case Dict(members) =>
      if members != [] {
        MembersReadBack(doc, members, rest);
        DictOpens(doc, members, rest);
      } else {
        EmptyOpens("{", "}", rest);
      }
  }

  lemma EmptyOpens(a: string, b: string, rest: string)
    requires |a| == 1 && |b| == 1
    ensures (a + "" + b + rest)[0] == a[0] && (a + "" + b + rest)[1] == b[0] && (a + "" + b + rest)[2..] == rest
  {
  }

  lemma Bracketed(a: string, inside: string, b: string, rest: string)
    requires |a| == 1
    ensures (a + inside + b + rest)[0] == a[0] && (a + inside + b + rest)[1..] == inside + (b + rest)
  {
  }

  lemma ListOpens(doc: Doc, items: seq<Doc>, rest: string)
    requires doc == List(items) && items != []
    ensures var s := Marshal(doc) + rest;
            |s| > 1 && s[0] == '[' && s[1] != ']' && s[1..] == MarshalItems(doc, items) + ("]" + rest)
  {
    Bracketed("[", MarshalItems(doc, items), "]", rest);
    MarshalStarts(items[0]);
    assert MarshalItems(doc, items)[0] == Marshal(items[0])[0];
  }

  lemma DictOpens(doc: Doc, members: seq<(string, Doc)>, rest: string)
    requires doc == Dict(members) && members != []
    ensures var s := Marshal(doc) + rest;
            |s| > 1 && s[0] == '{' && s[1] != '}' && s[1..] == MarshalMembers(doc, members) + ("}" + rest)
  {
    Bracketed("{", MarshalMembers(doc, members), "}", rest);
    assert MarshalMembers(doc, members)[0] == '"';
  }

  lemma MarshalStarts(doc: Doc)
    ensures Marshal(doc) != "" && Marshal(doc)[0] != ']'
  {
    match doc
    case Number(n) =>
      NumberReadBack(n, "");
      assert PrintInt(n) + "" == PrintInt(n);
      assert IsDigit(Print(if n < 0 then -n else n)[0]);
    case _ =>
  }

  lemma LastItem(s: string, item: Doc, rest: string)
    requires ReadValue(s) == Some((item, "]" + rest))
    ensures ReadItems(s) == Some(([item], rest))
  {
    assert ("]" + rest)[1..] == rest;
  }

  lemma NextItem(s: string, item: Doc, more: string, items: seq<Doc>, rest: string)
    requires ReadValue(s) == Some((item, "," + more)) && ReadItems(more) == Some((items, rest))
    ensures ReadItems(s) == Some(([item] + items, rest))
  {
    assert ("," + more)[1..] == more;
  }

  lemma {:induction false} ItemsReadBack(doc: Doc, items: seq<Doc>, rest: string)
    requires items != [] && forall i | 0 <= i < |items| :: items[i] < doc
    ensures ReadItems(MarshalItems(doc, items) + ("]" + rest)) == Some((items, rest))
    decreases doc, 0, |items|
  {
    if |items| == 1 {
      ValueReadBack(items[0], "]" + rest);
      OneItem(doc, items, rest);
    } else {
      ItemsReadBack(doc, items[1..], rest);
      ValueReadBack(items[0], "," + (MarshalItems(doc, items[1..]) + ("]" + rest)));
      MoreItems(doc, items, rest);
    }
  }

  lemma OneItem(doc: Doc, items: seq<Doc>, rest: string)
    requires |items| == 1 && items[0] < doc
    requires ReadValue(Marshal(items[0]) + ("]" + rest)) == Some((items[0], "]" + rest))
    ensures ReadItems(MarshalItems(doc, items) + ("]" + rest)) == Some((items, rest))
  {
    LastItemPrinted(doc, items, rest);
    LastItem(MarshalItems(doc, items) + ("]" + rest), items[0], rest);
    assert [items[0]] == items;
  }

  lemma MoreItems(doc: Doc, items: seq<Doc>, rest: string)
    requires |items| > 1 && forall i | 0 <= i < |items| :: items[i] < doc
    requires var more := MarshalItems(doc, items[1..]) + ("]" + rest);
             && ReadItems(more) == Some((items[1..], rest))
             && ReadValue(Marshal(items[0]) + ("," + more)) == Some((items[0], "," + more))
    ensures ReadItems(MarshalItems(doc, items) + ("]" + rest)) == Some((items, rest))
  {
    NextItemPrinted(doc, items, rest);
    NextItem(MarshalItems(doc, items) + ("]" + rest), items[0], MarshalItems(doc, items[1..]) + ("]" + rest),
             items[1..], rest);
    assert [items[0]] + items[1..] == items;
  }

  lemma LastItemPrinted(doc: Doc, items: seq<Doc>, rest: string)
    requires |items| == 1 && items[0] < doc
    ensures MarshalItems(doc, items) + ("]" + rest) == Marshal(items[0]) + ("]" + rest)
  {
    assert MarshalItems(doc, items[1..]) == "";
    GroupItem(Marshal(items[0]), "", "", "]" + rest);
  }

  lemma NextItemPrinted(doc: Doc, items: seq<Doc>, rest: string)
    requires |items| > 1 && forall i | 0 <= i < |items| :: items[i] < doc
    ensures MarshalItems(doc, items) + ("]" + rest) ==
            Marshal(items[0]) + ("," + (MarshalItems(doc, items[1..]) + ("]" + rest)))
  {
    GroupItem(Marshal(items[0]), ",", MarshalItems(doc, items[1..]), "]" + rest);
  }

  lemma GroupItem(item: string, comma: string, more: string, end: string)
    ensures (item + comma + more) + end == item + (comma + (more + end))
    ensures "" + ("" + end) == end
  {
  }

  lemma LastMemberRead(s: string, key: string, t: string, value: Doc, rest: string)
    requires ReadKey(s) == Some((key, t)) && ReadValue(t) == Some((value, "}" + rest))
    ensures ReadMembers(s) == Some(([(key, value)], rest))
  {
    assert ("}" + rest)[1..] == rest;
  }

  lemma NextMemberRead(s: string, key: string, t: string, value: Doc, more: string, members: seq<(string, Doc)>,
                       rest: string)
    requires ReadKey(s) == Some((key, t)) && ReadValue(t) == Some((value, "," + more))
    requires ReadMembers(more) == Some((members, rest))
    ensures ReadMembers(s) == Some(([(key, value)] + members, rest))
  {
    assert ("," + more)[1..] == more;
  }

  lemma {:induction false} MembersReadBack(doc: Doc, members: seq<(string, Doc)>, rest: string)
    requires members != [] && forall i | 0 <= i < |members| :: members[i].1 < doc
    ensures ReadMembers(MarshalMembers(doc, members) + ("}" + rest)) == Some((members, rest))
    decreases doc, 0, |members|
  {
    if |members| == 1 {
      ValueReadBack(members[0].1, "}" + rest);
      OneMember(doc, members, rest);
    } else {
      MembersReadBack(doc, members[1..], rest);
      ValueReadBack(members[0].1, "," + (MarshalMembers(doc, members[1..]) + ("}" + rest)));
      MoreMembers(doc, members, rest);
    }
  }

  lemma OneMember(doc: Doc, members: seq<(string, Doc)>, rest: string)
    requires |members| == 1 && members[0].1 < doc
    requires ReadValue(Marshal(members[0].1) + ("}" + rest)) == Some((members[0].1, "}" + rest))
    ensures ReadMembers(MarshalMembers(doc, members) + ("}" + rest)) == Some((members, rest))
  {
    var (key, value) := members[0];
    LastMemberPrinted(doc, members, rest);
    KeyReadBack(key, Marshal(value) + ("}" + rest));
    LastMemberRead(MarshalMembers(doc, members) + ("}" + rest), key, Marshal(value) + ("}" + rest), value, rest);
    assert [(key, value)] == members;
  }

  lemma MoreMembers(doc: Doc, members: seq<(string, Doc)>, rest: string)
    requires |members| > 1 && forall i | 0 <= i < |members| :: members[i].1 < doc
    requires var more := MarshalMembers(doc, members[1..]) + ("}" + rest);
             && ReadMembers(more) == Some((members[1..], rest))
             && ReadValue(Marshal(members[0].1) + ("," + more)) == Some((members[0].1, "," + more))
    ensures ReadMembers(MarshalMembers(doc, members) + ("}" + rest)) == Some((members, rest))
  {
    var (key, value) := members[0];
    var more := MarshalMembers(doc, members[1..]) + ("}" + rest);
    NextMemberPrinted(doc, members, rest);
    KeyReadBack(key, Marshal(value) + ("," + more));
    NextMemberRead(MarshalMembers(doc, members) + ("}" + rest), key, Marshal(value) + ("," + more), value, more,
                   members[1..], rest);
    assert [(key, value)] + members[1..] == members;
  }

  lemma LastMemberPrinted(doc: Doc, members: seq<(string, Doc)>, rest: string)
    requires |members| == 1 && members[0].1 < doc
    ensures MarshalMembers(doc, members) + ("}" + rest) ==
            Quote(members[0].0) + (":" + (Marshal(members[0].1) + ("}" + rest)))
  {
    assert MarshalMembers(doc, members[1..]) == "";
    GroupMember(Quote(members[0].0), Marshal(members[0].1), "", "", "}" + rest);
  }

  lemma NextMemberPrinted(doc: Doc, members: seq<(string, Doc)>, rest: string)
    requires |members| > 1 && forall i | 0 <= i < |members| :: members[i].1 < doc
    ensures MarshalMembers(doc, members) + ("}" + rest) ==
            Quote(members[0].0) +
            (":" + (Marshal(members[0].1) + ("," + (MarshalMembers(doc, members[1..]) + ("}" + rest)))))
  {
    GroupMember(Quote(members[0].0), Marshal(members[0].1), ",", MarshalMembers(doc, members[1..]), "}" + rest);
  }

  lemma GroupMember(key: string, value: string, comma: string, more: string, end: string)
    ensures (key + ":" + value + comma + more) + end == key + (":" + (value + (comma + (more + end))))
    ensures "" + ("" + end) == end
  {
    assert (key + ":" + value + comma + more) + end == (key + ":") + (value + (comma + (more + end)));
  }

  lemma KeyReadBack(key: string, rest: string)
    ensures ReadKey(Quote(key) + (":" + rest)) == Some((key, rest))
  {
    QuoteReadBack(key, ":" + rest);
    assert (":" + rest)[1..] == rest;
  }

  /** Printing is undone by reading. */
  lemma ReadOfMarshal(doc: Doc)
    ensures Read(Marshal(doc)) == Some(doc)
  {
    ValueReadBack(doc, "");
    assert Marshal(doc) + "" == Marshal(doc);
  }

  // -------------------------------------------------------------------- member lookup

  function Member(members: seq<(string, Doc)>, key: string): Option<Doc> {
    if members == [] then None
    else if members[0].0 == key then Some(members[0].1)
    else Member(members[1..], key)
  }

  /** What is found in a text by following member names from the outermost object. */
  function Find(doc: Option<Doc>, path: seq<string>): Option<Doc>
    decreases |path|
  {
    if path == [] || doc.None? then doc
    else if doc.value.Dict? then Find(Member(doc.value.members, path[0]), path[1..])
    else None
  }
}
