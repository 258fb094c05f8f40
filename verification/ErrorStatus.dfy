/** The HTTP status hidden in an upstream JSON error body. */
module ErrorStatus {
  import opened Options

  /** A parsed upstream document; a number is the value it denotes. */
  datatype Value =
    | Null
    | Bool(b: bool)
    | Num(value: real)
    | Str(s: string)
    | Array(elements: seq<Value>)
    | Object(fields: seq<(string, Value)>)

  const BAD_GATEWAY: nat := 502

  /** Go matches member names to struct fields without regard to case; besides the
      ASCII letters, the long s and the Kelvin sign fold onto `s` and `k`. */
  function Fold(key: string): string {
    if key == "" then ""
    else
      var c := key[0];
      [if 'A' <= c <= 'Z' then (c as int + 32) as char
       else if c == '\U{017F}' then 's'
       else if c == '\U{212A}' then 'k'
       else c] + Fold(key[1..])
  }

  /** The struct that is unmarshalled into; `broken` records a type error. */
  datatype Fields = Fields(status: Option<Value>, code: Option<Value>, top: Option<Value>, broken: bool)

  const NO_FIELDS := Fields(None, None, None, false)

  function AbsorbError(f: Fields, members: seq<(string, Value)>): Fields
    decreases |members|
  {
    if members == [] then f
    else
      var (key, v) := members[0];
      AbsorbError(
        if Fold(key) == "status" then f.(status := Some(v))
        else if Fold(key) == "code" then f.(code := Some(v))
        else f,
        members[1..])
  }

  /** Members in document order: a repeated scalar overwrites, a repeated `error`
      object merges, and an `error` that is neither object nor null is a type error. */
  function Absorb(f: Fields, members: seq<(string, Value)>): Fields
    decreases |members|
  {
    if members == [] then f
    else
      var (key, v) := members[0];
      Absorb(
        if Fold(key) == "error" then
          match v
          case Object(inner) => AbsorbError(f, inner)
          case Null => f
          case _ => f.(broken := true)
        else if Fold(key) == "status" then f.(top := Some(v))
        else f,
        members[1..])
  }

  predicate IsStatus(v: Option<Value>) {
    v.Some? && v.value.Num? && 400.0 <= v.value.value <= 599.0
  }

  /** A number in [400, 599], truncated; 0 for everything else. */
  function NumericStatus(v: Option<Value>): (n: nat)
    ensures IsStatus(v) ==> 400 <= n <= 599 && n as real <= v.value.value < n as real + 1.0
    ensures !IsStatus(v) ==> n == 0
  {
    match v
    case Some(Num(x)) => if 400.0 <= x <= 599.0 then x.Floor else 0
    case _ => 0
  }

  /** `doc` is what the body parses to, `None` for malformed JSON. */
  function MapErrorStatus(doc: Option<Value>): (n: nat)
    ensures 400 <= n <= 599
  {
    match doc
    case Some(Object(members)) =>
      var f := Absorb(NO_FIELDS, members);
      if f.broken then BAD_GATEWAY
      else if NumericStatus(f.status) != 0 then NumericStatus(f.status)
      else if NumericStatus(f.code) != 0 then NumericStatus(f.code)
      else if NumericStatus(f.top) != 0 then NumericStatus(f.top)
      else BAD_GATEWAY
    case _ => BAD_GATEWAY
  }

  // ------------------------------------------------------------ which status is found

  /** Letters that Go takes for the same: upper and lower case, and the two that fold. */
  predicate SameLetter(c: char, d: char) {
    || c == d
    || ('A' <= c <= 'Z' && d as int == c as int + 32) || ('A' <= d <= 'Z' && c as int == d as int + 32)
    || (c in {'s', 'S', '\U{017F}'} && d in {'s', 'S', '\U{017F}'})
    || (c in {'k', 'K', '\U{212A}'} && d in {'k', 'K', '\U{212A}'})
  }

  /** Two names fold to the same exactly when they agree letter by letter. */
  lemma {:induction false} FoldIsCaseless(a: string, b: string)
    ensures Fold(a) == Fold(b) <==> |a| == |b| && forall i | 0 <= i < |a| :: SameLetter(a[i], b[i])
    decreases |a|
  {
    if a != "" && b != "" {
      FoldIsCaseless(a[1..], b[1..]);
      assert Fold(a) == [Fold(a)[0]] + Fold(a[1..]) && Fold(b) == [Fold(b)[0]] + Fold(b[1..]);
      assert Fold(a)[0] == Fold(b)[0] <==> SameLetter(a[0], b[0]);
      assert Fold(a)[1..] == Fold(a[1..]) && Fold(b)[1..] == Fold(b[1..]);
      assert |a| == |b| ==> forall i | 0 < i < |a| :: a[i] == a[1..][i - 1] && b[i] == b[1..][i - 1];
      assert |a| == |b| ==> forall i | 0 <= i < |a| - 1 :: a[1..][i] == a[i + 1] && b[1..][i] == b[i + 1];
    }
  }

  /** The last member of that name, whatever its case. */
  function LastMember(members: seq<(string, Value)>, name: string): (v: Option<Value>)
    ensures v.None? ==> forall i | 0 <= i < |members| :: Fold(members[i].0) != name
    ensures v.Some? ==> exists i | 0 <= i < |members| ::
                          && Fold(members[i].0) == name && members[i].1 == v.value
                          && forall j | i < j < |members| :: Fold(members[j].0) != name
  {
    if members == [] then None
    else
      var last := members[|members| - 1];
      if Fold(last.0) == name then Some(last.1) else LastMember(members[..|members| - 1], name)
  }

  /** The members of all `error` objects of a document, one after the other. */
  function ErrorMembers(members: seq<(string, Value)>): seq<(string, Value)> {
    if members == [] then []
    else
      var last := members[|members| - 1];
      ErrorMembers(members[..|members| - 1]) +
      if Fold(last.0) == "error" && last.1.Object? then last.1.fields else []
  }

  lemma {:induction false} LastOfConcat(a: seq<(string, Value)>, b: seq<(string, Value)>, name: string)
    ensures LastMember(a + b, name) == if LastMember(b, name).Some? then LastMember(b, name) else LastMember(a, name)
    decreases |b|
  {
    if b == [] {
      assert a + b == a;
    } else {
      assert (a + b)[..|a + b| - 1] == a + b[..|b| - 1];
      LastOfConcat(a, b[..|b| - 1], name);
    }
  }

  lemma {:induction false} ErrorMembersOfConcat(a: seq<(string, Value)>, b: seq<(string, Value)>)
    ensures ErrorMembers(a + b) == ErrorMembers(a) + ErrorMembers(b)
    decreases |b|
  {
    if b == [] {
      assert a + b == a;
    } else {
      assert (a + b)[..|a + b| - 1] == a + b[..|b| - 1];
      ErrorMembersOfConcat(a, b[..|b| - 1]);
    }
  }

  function Or(v: Option<Value>, before: Option<Value>): Option<Value> {
    if v.Some? then v else before
  }

  lemma LastOfOne(m: (string, Value), name: string)
    ensures LastMember([m], name) == if Fold(m.0) == name then Some(m.1) else None
  {
    assert [m][..0] == [];
  }

  lemma ErrorMembersOfOne(m: (string, Value))
    ensures ErrorMembers([m]) == if Fold(m.0) == "error" && m.1.Object? then m.1.fields else []
  {
    assert [m][..0] == [];
  }

  lemma {:induction false} AbsorbErrorExactly(f: Fields, members: seq<(string, Value)>)
    ensures var g := AbsorbError(f, members);
            g.status == Or(LastMember(members, "status"), f.status) && g.code == Or(LastMember(members, "code"), f.code)
    decreases |members|
  {
    if members != [] {
      var m, rest := members[0], members[1..];
      AbsorbErrorExactly(
        if Fold(m.0) == "status" then f.(status := Some(m.1))
        else if Fold(m.0) == "code" then f.(code := Some(m.1))
        else f,
        rest);
      assert members == [m] + rest;
      LastOfConcat([m], rest, "status");
      LastOfConcat([m], rest, "code");
      LastOfOne(m, "status");
      LastOfOne(m, "code");
    }
  }

  /** Unmarshalling ends with the last `status` of the document, and the last `status`
      and `code` among the members of all its `error` objects. */
  lemma {:induction false} AbsorbExactly(f: Fields, members: seq<(string, Value)>)
    ensures var g, inner := Absorb(f, members), ErrorMembers(members);
            && g.top == Or(LastMember(members, "status"), f.top)
            && g.status == Or(LastMember(inner, "status"), f.status)
            && g.code == Or(LastMember(inner, "code"), f.code)
    decreases |members|
  {
    if members != [] {
      var m, rest := members[0], members[1..];
      var own := if Fold(m.0) == "error" && m.1.Object? then m.1.fields else [];
      var g :=
        if Fold(m.0) == "error" then
          match m.1
          case Object(inner) => AbsorbError(f, inner)
          case Null => f
          case _ => f.(broken := true)
        else if Fold(m.0) == "status" then f.(top := Some(m.1))
        else f;
      AbsorbErrorExactly(f, own);
      ErrorKeepsBroken(f, own);
      AbsorbExactly(g, rest);
      assert members == [m] + rest;
      ErrorMembersOfConcat([m], rest);
      ErrorMembersOfOne(m);
      LastOfConcat([m], rest, "status");
      LastOfOne(m, "status");
      LastOfConcat(own, ErrorMembers(rest), "status");
      LastOfConcat(own, ErrorMembers(rest), "code");
    }
  }

  predicate HasBadError(members: seq<(string, Value)>) {
    exists i | 0 <= i < |members| :: Fold(members[i].0) == "error" && !members[i].1.Object? && !members[i].1.Null?
  }

  // ------------------------------------------------------------------------ type errors

  lemma {:induction false} BrokenStays(f: Fields, members: seq<(string, Value)>)
    requires f.broken
    ensures Absorb(f, members).broken
    decreases |members|
  {
    if members != [] {
      if Fold(members[0].0) == "error" && members[0].1.Object? {
        ErrorKeepsBroken(f, members[0].1.fields);
        BrokenStays(AbsorbError(f, members[0].1.fields), members[1..]);
      } else if Fold(members[0].0) == "status" {
        BrokenStays(f.(top := Some(members[0].1)), members[1..]);
      } else {
        BrokenStays(f, members[1..]);
      }
    }
  }

  lemma {:induction false} ErrorKeepsBroken(f: Fields, members: seq<(string, Value)>)
    ensures AbsorbError(f, members).broken == f.broken && AbsorbError(f, members).top == f.top
    decreases |members|
  {
    if members != [] {
      var (key, v) := members[0];
      ErrorKeepsBroken(
        if Fold(key) == "status" then f.(status := Some(v))
        else if Fold(key) == "code" then f.(code := Some(v))
        else f,
        members[1..]);
    }
  }

  /** A type error is exactly one `error` member that is neither object nor null;
      it hides every other status in the body. */
  lemma {:induction false} BrokenExactly(f: Fields, members: seq<(string, Value)>)
    requires !f.broken
    ensures Absorb(f, members).broken <==>
            HasBadError(members)
    decreases |members|
  {
    if members != [] {
      var (key, v) := members[0];
      var rest := members[1..];
      assert forall i | 1 <= i < |members| :: members[i] == rest[i - 1];
      if Fold(key) == "error" {
        match v {
          case Object(inner) =>
            ErrorKeepsBroken(f, inner);
            BrokenExactly(AbsorbError(f, inner), rest);
          case Null => BrokenExactly(f, rest);
          case _ => BrokenStays(f.(broken := true), rest);
        }
      } else if Fold(key) == "status" {
        BrokenExactly(f.(top := Some(v)), rest);
      } else {
        BrokenExactly(f, rest);
      }
      assert forall i | 0 <= i < |rest| :: rest[i] == members[i + 1];
    }
  }

  /** So an error given as a string, number, list or boolean is always a 502. */
  lemma BrokenErrorIsBadGateway(members: seq<(string, Value)>, i: nat)
    requires i < |members| && Fold(members[i].0) == "error"
    requires !members[i].1.Object? && !members[i].1.Null?
    ensures MapErrorStatus(Some(Object(members))) == 502
  {
    BrokenExactly(NO_FIELDS, members);
  }

  /** The status of an error body: without a type error, the first of `error.status`,
      `error.code` and the top-level `status` that is a number in [400, 599], and 502
      when none of them is. */
  lemma StatusPrecedence(members: seq<(string, Value)>)
    ensures var inner, n := ErrorMembers(members), MapErrorStatus(Some(Object(members)));
            var status, code := LastMember(inner, "status"), LastMember(inner, "code");
            var top := LastMember(members, "status");
            if HasBadError(members) then n == 502
            else if IsStatus(status) then n == status.value.value.Floor
            else if IsStatus(code) then n == code.value.value.Floor
            else if IsStatus(top) then n == top.value.value.Floor
            else n == 502
  {
    AbsorbExactly(NO_FIELDS, members);
    BrokenExactly(NO_FIELDS, members);
  }

  /** And a body that is no object, or no JSON at all, gives a 502. */
  lemma NoObjectIsBadGateway(doc: Option<Value>)
    requires doc.None? || !doc.value.Object?
    ensures MapErrorStatus(doc) == 502
  {
  }
}
