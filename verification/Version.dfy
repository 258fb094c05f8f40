/** Version tags, read the way `fmt.Sscanf` reads "%d.%d.%d". */
module Version {
  import opened Options
  import opened Decimal

  const MAX_INT: int := 0x7fff_ffff_ffff_ffff

  /** Unicode white space, as both `fmt` and `strings` see it. */
  predicate IsSpace(c: char) {
    c in {' ', '\t', '\n', '\r', '\U{0B}', '\U{0C}', '\U{85}', '\U{A0}', '\U{1680}', '\U{2028}', '\U{2029}',
          '\U{202F}', '\U{205F}', '\U{3000}'}
    || '\U{2000}' <= c <= '\U{200A}'
  }

  /** Leading white space is skipped, but a line break stops the scan. */
  function SkipSpace(s: string): Option<string>
    decreases |s|
  {
    if s == "" || !IsSpace(s[0]) then Some(s)
    else if s[0] == '\n' then None
    else SkipSpace(s[1..])
  }

  function DigitRun(s: string): (k: nat)
    ensures k <= |s| && AllDigits(s[..k])
    ensures k < |s| ==> !IsDigit(s[k])
  {
    if s == "" || !IsDigit(s[0]) then 0
    else
      var k := DigitRun(s[1..]);
      assert forall i | 0 < i < 1 + k :: s[i] == s[1..][..k][i - 1];
      1 + k
  }

  /** The integer at the front and what follows it: an optional sign, at least one
      digit, and a value that fits 64 bits. */
  function ScanInt(s: string): Option<(int, string)> {
    match SkipSpace(s)
    case None => None
    case Some(t) =>
      var signed := t != "" && (t[0] == '+' || t[0] == '-');
      var digits := if signed then t[1..] else t;
      var k := DigitRun(digits);
      if k == 0 then None
      else
        var magnitude: int := Value(digits[..k]);
        var value := if signed && t[0] == '-' then -magnitude else magnitude;
        if -MAX_INT - 1 <= value <= MAX_INT then Some((value, digits[k..])) else None
  }

  function Dot(s: string): Option<string> {
    if s != "" && s[0] == '.' then Some(s[1..]) else None
  }

  /** The three numbers; those after the first failure stay 0. */
  function Scan3(s: string): (int, int, int) {
    match ScanInt(s)
    case None => (0, 0, 0)
    case Some((a, afterA)) =>
      match Dot(afterA)
      case None => (a, 0, 0)
      case Some(s2) =>
        match ScanInt(s2)
        case None => (a, 0, 0)
        case Some((b, afterB)) =>
          match Dot(afterB)
          case None => (a, b, 0)
          case Some(s3) =>
            match ScanInt(s3)
            case None => (a, b, 0)
            case Some((c, _)) => (a, b, c)
  }

  function TrimV(s: string): string {
    if s != "" && s[0] == 'v' then s[1..] else s
  }

  predicate VersionNewer(current: string, latest: string) {
    if current == "dev" then true
    else
      var (c1, c2, c3) := Scan3(TrimV(current));
      var (l1, l2, l3) := Scan3(TrimV(latest));
      if l1 != c1 then l1 > c1 else if l2 != c2 then l2 > c2 else l3 > c3
  }

  // ------------------------------------------------------------------- properties

  /** A number that a 64-bit signed integer holds. */
  predicate Fits(n: nat) {
    n < 0x8000_0000_0000_0000
  }

  predicate NoDigitNext(rest: string) {
    rest == "" || !IsDigit(rest[0])
  }

  predicate LexLess(a: (int, int, int), b: (int, int, int)) {
    a.0 < b.0 || (a.0 == b.0 && (a.1 < b.1 || (a.1 == b.1 && a.2 < b.2)))
  }

  lemma {:induction false} DigitRunOfNumber(s: string, rest: string)
    requires AllDigits(s) && NoDigitNext(rest)
    ensures DigitRun(s + rest) == |s|
    decreases |s|
  {
    if s == "" {
      assert s + rest == rest;
    } else {
      assert (s + rest)[1..] == s[1..] + rest;
      DigitRunOfNumber(s[1..], rest);
    }
  }

  lemma ScanIntOfPrint(n: nat, rest: string)
    requires Fits(n) && NoDigitNext(rest)
    ensures ScanInt(Print(n) + rest) == Some((n, rest))
  {
    var s := Print(n);
    assert IsDigit(s[0]) && (s + rest)[0] == s[0];
    assert SkipSpace(s + rest) == Some(s + rest);
    DigitRunOfNumber(s, rest);
    assert (s + rest)[..|s|] == s && (s + rest)[|s|..] == rest;
    ValueOfPrint(n);
  }

  predicate Blanks(s: string) {
    forall i | 0 <= i < |s| :: s[i] == ' ' || s[i] == '\t'
  }

  lemma {:induction false} BlanksSkipped(blanks: string, s: string)
    requires Blanks(blanks)
    ensures SkipSpace(blanks + s) == SkipSpace(s)
    decreases |blanks|
  {
    if blanks == "" {
      assert blanks + s == s;
    } else {
      assert (blanks + s)[1..] == blanks[1..] + s;
      BlanksSkipped(blanks[1..], s);
    }
  }

  /** Blanks before a number are skipped, a line break is not, and a sign is read. */
  lemma ScanIntForms(blanks: string, n: nat, rest: string)
    requires Blanks(blanks) && Fits(n) && NoDigitNext(rest)
    ensures ScanInt(blanks + (Print(n) + rest)) == Some((n, rest))
    ensures ScanInt("\n" + (Print(n) + rest)) == None
    ensures ScanInt("-" + (Print(n) + rest)) == Some((0 - n as int, rest))
    ensures ScanInt("+" + (Print(n) + rest)) == Some((n, rest))
  {
    var s := Print(n) + rest;
    BlanksSkipped(blanks, s);
    ScanIntOfPrint(n, rest);
    SignRead('-', n, rest);
    SignRead('+', n, rest);
  }

  lemma SignRead(sign: char, n: nat, rest: string)
    requires sign in {'+', '-'} && Fits(n) && NoDigitNext(rest)
    ensures ScanInt([sign] + (Print(n) + rest)) == Some((if sign == '-' then 0 - n as int else n as int, rest))
  {
    var s := Print(n) + rest;
    assert ([sign] + s)[1..] == s;
    assert SkipSpace([sign] + s) == Some([sign] + s);
    DigitRunOfNumber(Print(n), rest);
    assert s[..|Print(n)|] == Print(n) && s[|Print(n)|..] == rest;
    ValueOfPrint(n);
  }

  /** A version as it is printed, with whatever may follow it. */
  function PrintVersion(a: nat, b: nat, c: nat, suffix: string): string {
    Print(a) + ("." + (Print(b) + ("." + (Print(c) + suffix))))
  }

  lemma DotOf(s: string)
    ensures Dot("." + s) == Some(s)
  {
  }

  lemma NextNumber(s: string, n: nat, more: string)
    requires Fits(n) && s == Print(n) + ("." + more)
    ensures ScanInt(s) == Some((n, "." + more)) && Dot("." + more) == Some(more)
  {
    ScanIntOfPrint(n, "." + more);
    DotOf(more);
  }

  lemma Scan3OfPrint(a: nat, b: nat, c: nat, suffix: string)
    requires Fits(a) && Fits(b) && Fits(c) && NoDigitNext(suffix)
    ensures Scan3(PrintVersion(a, b, c, suffix)) == (a, b, c)
  {
    var s3 := Print(c) + suffix;
    var s2 := Print(b) + ("." + s3);
    var s1 := Print(a) + ("." + s2);
    NextNumber(s1, a, s2);
    NextNumber(s2, b, s3);
    ScanIntOfPrint(c, suffix);
    Scan3Steps(s1, a, s2, b, s3, c, suffix);
  }

  lemma Scan3Steps(s1: string, a: int, s2: string, b: int, s3: string, c: int, rest: string)
    requires ScanInt(s1) == Some((a, "." + s2)) && Dot("." + s2) == Some(s2)
    requires ScanInt(s2) == Some((b, "." + s3)) && Dot("." + s3) == Some(s3)
    requires ScanInt(s3) == Some((c, rest))
    ensures Scan3(s1) == (a, b, c)
  {
  }

  /** On tags "vA.B.C", with any suffix that does not go on with a digit, a release is
      newer exactly when its numbers are lexicographically greater. */
  lemma VersionNewerIsLexicographic(a: nat, b: nat, c: nat, suffix: string, x: nat, y: nat, z: nat, tail: string)
    requires Fits(a) && Fits(b) && Fits(c) && NoDigitNext(suffix)
    requires Fits(x) && Fits(y) && Fits(z) && NoDigitNext(tail)
    ensures VersionNewer("v" + PrintVersion(a, b, c, suffix), "v" + PrintVersion(x, y, z, tail)) <==>
            LexLess((a, b, c), (x, y, z))
  {
    var current, latest := PrintVersion(a, b, c, suffix), PrintVersion(x, y, z, tail);
    assert ("v" + current)[0] == 'v' && ("v" + current)[1..] == current;
    assert ("v" + latest)[1..] == latest;
    Scan3OfPrint(a, b, c, suffix);
    Scan3OfPrint(x, y, z, tail);
  }

  /** The "v" in front makes no difference. */
  lemma PrefixIsOptional(a: string, b: string)
    requires (a == "" || a[0] != 'v') && a != "dev"
    ensures VersionNewer("v" + a, b) == VersionNewer(a, b) && VersionNewer(b, "v" + a) == VersionNewer(b, a)
  {
    assert ("v" + a)[1..] == a;
    assert ("v" + a)[0] == 'v' && "dev"[0] == 'd';
  }

  /** A development build sees every release as newer, whatever its tag; and being one is
      never newer than a release. */
  lemma DevSeesEverything(tag: string)
    ensures VersionNewer("dev", tag)
    ensures Scan3(TrimV("dev")) == (0, 0, 0)
  {
    assert !IsDigit("dev"[0]) && !IsSpace("dev"[0]);
  }

  /** Away from "dev" it is a strict weak order on all strings, well-formed or not; in
      particular no tag is newer than itself, so a check after moving to the released
      tag finds nothing. */
  lemma VersionNewerIsStrictWeakOrder(a: string, b: string, c: string)
    requires a != "dev" && b != "dev" && c != "dev"
    ensures !VersionNewer(a, a)
    ensures VersionNewer(a, b) ==> !VersionNewer(b, a)
    ensures VersionNewer(a, b) && VersionNewer(b, c) ==> VersionNewer(a, c)
    ensures !VersionNewer(a, b) && !VersionNewer(b, a) && !VersionNewer(b, c) && !VersionNewer(c, b) ==>
            !VersionNewer(a, c) && !VersionNewer(c, a)
  {
  }

  /** A number beyond 64 bits is no number to the scanner, */
  lemma HugeNumberFails(n: nat, rest: string)
    requires !Fits(n) && NoDigitNext(rest)
    ensures ScanInt(Print(n) + rest) == None
  {
    var s := Print(n);
    assert IsDigit(s[0]) && (s + rest)[0] == s[0];
    assert SkipSpace(s + rest) == Some(s + rest);
    DigitRunOfNumber(s, rest);
    assert (s + rest)[..|s|] == s;
    ValueOfPrint(n);
  }
  /** so it stops the scan wherever it stands: it and what follows count as 0. */
  lemma HugeNumberStopsScan(a: nat, b: nat, n: nat, rest: string)
    requires Fits(a) && Fits(b) && !Fits(n) && NoDigitNext(rest)
    ensures Scan3(Print(n) + rest) == (0, 0, 0)
    ensures Scan3(Print(a) + ("." + (Print(n) + rest))) == (a, 0, 0)
    ensures Scan3(Print(a) + ("." + (Print(b) + ("." + (Print(n) + rest))))) == (a, b, 0)
  {
    var huge := Print(n) + rest;
    HugeNumberFails(n, rest);
    NextNumber(Print(a) + ("." + huge), a, huge);
    var later := Print(b) + ("." + huge);
    NextNumber(later, b, huge);
    NextNumber(Print(a) + ("." + later), a, later);
  }
}
