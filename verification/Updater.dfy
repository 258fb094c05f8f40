/**
 The updater: `Check` finds a newer release and its checksum line, `Apply` installs a
 download whose digest is the one on that line.

 GitHub's answers, SHA-256 and `selfupdate` are parameters.
 */
module Updater {
  import opened Options
  import opened Version

  // ----------------------------------------------------------------- strings

  function TrimLeft(s: string): (t: string)
    ensures |t| <= |s| && (t != "" ==> !IsSpace(t[0]))
    ensures s != "" && !IsSpace(s[0]) ==> t == s
  {
    if s == "" || !IsSpace(s[0]) then s else TrimLeft(s[1..])
  }

  function TrimRight(s: string): (t: string)
    ensures s != "" && !IsSpace(s[|s| - 1]) ==> t == s
  {
    if s == "" || !IsSpace(s[|s| - 1]) then s else TrimRight(s[..|s| - 1])
  }

  function TrimSpace(s: string): string {
    TrimRight(TrimLeft(s))
  }

  /** The length of the leading word. */
  function WordLength(s: string): (k: nat)
    ensures k <= |s|
    ensures s != "" && !IsSpace(s[0]) ==> k > 0
  {
    if s == "" || IsSpace(s[0]) then 0 else 1 + WordLength(s[1..])
  }

  /** The words between runs of white space. */
  function Fields(s: string): seq<string>
    decreases |s|
  {
    var t := TrimLeft(s);
    if t == "" then [] else [t[..WordLength(t)]] + Fields(t[WordLength(t)..])
  }

  function LineLength(s: string): (k: nat)
    ensures k <= |s|
    ensures k < |s| ==> s[k] == '\n'
  {
    if s == "" || s[0] == '\n' then 0 else 1 + LineLength(s[1..])
  }

  /** `strings.Split` at line feeds: one more piece than there are line feeds. */
  function SplitLines(s: string): seq<string>
    decreases |s|
  {
    var k := LineLength(s);
    if k == |s| then [s] else [s[..k]] + SplitLines(s[k + 1..])
  }

  // --------------------------------------------------------------- checksum lines

  function ParseChecksumLine(line: string, name: string): Option<string> {
    var parts := Fields(TrimSpace(line));
    if |parts| != 2 || parts[1] != name then None else Some(parts[0])
  }

  /** The first line that parses for `name`. */
  function FirstLineFor(lines: seq<string>, name: string): (found: Option<string>)
    ensures found.Some? ==>
            exists i | 0 <= i < |lines| ::
              && lines[i] == found.value && ParseChecksumLine(lines[i], name).Some?
              && forall j | 0 <= j < i :: ParseChecksumLine(lines[j], name).None?
    ensures found.None? ==> forall i | 0 <= i < |lines| :: ParseChecksumLine(lines[i], name).None?
  {
    if lines == [] then None
    else if ParseChecksumLine(lines[0], name).Some? then Some(lines[0])
    else FirstLineFor(lines[1..], name)
  }

  method FindChecksumLine(checksums: string, name: string) returns (found: Option<string>)
    ensures found == FirstLineFor(SplitLines(checksums), name)
    ensures var lines := SplitLines(checksums);
            found.Some? <==> exists i | 0 <= i < |lines| :: ParseChecksumLine(lines[i], name).Some?
  {
    var lines := SplitLines(checksums);
    for i := 0 to |lines|
      invariant FirstLineFor(lines, name) == FirstLineFor(lines[i..], name)
      invariant forall k | 0 <= k < i :: ParseChecksumLine(lines[k], name).None?
    {
      assert lines[i..][0] == lines[i] && lines[i..][1..] == lines[i + 1..];
      if ParseChecksumLine(lines[i], name).Some? {
        return Some(lines[i]);
      }
    }
    assert lines[|lines|..] == [];
    found := None;
  }

  // ------------------------------------------------------------------------ check

  datatype Asset = Asset(name: string, url: string)

  datatype Release = Release(tag: string, assets: seq<Asset>, page: string)

  /** What GitHub answers; `None` is an error. */
  datatype GitHub = GitHub(
    latest: Option<Release>,
    checksums: string -> Option<string>,
    download: string -> Option<string>)

  datatype UpdateInfo = UpdateInfo(version: string, assetURL: string, checksumLine: string, releaseURL: string)

  datatype CheckResult = Update(info: UpdateInfo) | UpToDate | NoRelease | NoAsset | NoChecksums | NoChecksum

  function AssetName(goos: string, goarch: string): string {
    "cc2ws-" + goos + "-" + goarch + if goos == "windows" then ".exe" else ""
  }

  lemma AssetNames(goos: string, goarch: string)
    ensures AssetName("windows", goarch) == "cc2ws-windows-" + goarch + ".exe"
    ensures goos != "windows" ==> AssetName(goos, goarch) == "cc2ws-" + goos + "-" + goarch
  {
    assert "cc2ws-" + "windows" + "-" == "cc2ws-windows-";
    assert "cc2ws-" + goos + "-" + goarch + "" == "cc2ws-" + goos + "-" + goarch;
  }

  /** The URL of the last asset of that name, empty when there is none. */
  function AssetUrl(assets: seq<Asset>, name: string): (url: string)
    ensures (exists i | 0 <= i < |assets| :: assets[i].name == name && assets[i].url == url &&
                                             forall j | i < j < |assets| :: assets[j].name != name) ||
            (url == "" && forall i | 0 <= i < |assets| :: assets[i].name != name)
  {
    if assets == [] then ""
    else if assets[|assets| - 1].name == name then assets[|assets| - 1].url
    else AssetUrl(assets[..|assets| - 1], name)
  }

  method Check(gh: GitHub, current: string, want: string) returns (r: CheckResult)
    ensures r.Update? <==>
            && gh.latest.Some? && VersionNewer(current, gh.latest.value.tag)
            && AssetUrl(gh.latest.value.assets, want) != ""
            && gh.checksums(gh.latest.value.tag).Some?
            && FirstLineFor(SplitLines(gh.checksums(gh.latest.value.tag).value), want).Some?
    ensures r.Update? ==>
            r.info == UpdateInfo(gh.latest.value.tag, AssetUrl(gh.latest.value.assets, want),
                                 FirstLineFor(SplitLines(gh.checksums(gh.latest.value.tag).value), want).value,
                                 gh.latest.value.page)
    ensures r.UpToDate? <==> gh.latest.Some? && !VersionNewer(current, gh.latest.value.tag)
    ensures r.NoRelease? <==> gh.latest.None?
    ensures r.NoAsset? <==>
            && gh.latest.Some? && VersionNewer(current, gh.latest.value.tag)
            && AssetUrl(gh.latest.value.assets, want) == ""
    ensures r.NoChecksums? <==>
            && gh.latest.Some? && VersionNewer(current, gh.latest.value.tag)
            && AssetUrl(gh.latest.value.assets, want) != "" && gh.checksums(gh.latest.value.tag).None?
  {
    if gh.latest.None? {
      return NoRelease;
    }
    var m := gh.latest.value;
    if !VersionNewer(current, m.tag) {
      return UpToDate;
    }
    var assetURL := "";
    for i := 0 to |m.assets|
      invariant assetURL == AssetUrl(m.assets[..i], want)
    {
      assert m.assets[..i + 1][..i] == m.assets[..i];
      if m.assets[i].name == want {
        assetURL := m.assets[i].url;
      }
    }
    assert m.assets[..|m.assets|] == m.assets;
    if assetURL == "" {
      return NoAsset;
    }
    var checksums := gh.checksums(m.tag);
    if checksums.None? {
      return NoChecksums;
    }
    var checksumLine := "";
    var line := FindChecksumLine(checksums.value, want);
    if line.Some? {
      ParsingLineNonEmpty(line.value, want);
      checksumLine := line.value;
    }
    if checksumLine == "" {
      return NoChecksum;
    }
    r := Update(UpdateInfo(m.tag, assetURL, checksumLine, m.page));
  }

  lemma ParsingLineNonEmpty(line: string, name: string)
    requires ParseChecksumLine(line, name).Some?
    ensures line != ""
  {
  }

  // ------------------------------------------------------------------------ apply

  datatype ApplyResult = Applied | DownloadFailed | Malformed | Mismatch | InstallFailed

  /** The running program's binary, as far as `selfupdate` is concerned. */
  class Binary {
    /** Every body handed to `selfupdate.Apply`, in order. */
    var handed: seq<string>

    constructor ()
      ensures handed == []
    {
      handed := [];
    }

    method Install(body: string, works: bool) returns (ok: bool)
      modifies this
      ensures handed == old(handed) + [body] && ok == works
    {
      handed := handed + [body];
      ok := works;
    }
  }

  predicate VerifyChecksum(hash: string -> string, body: string, sum: string) {
    hash(body) == sum
  }

  /** Nothing reaches `selfupdate` but a body whose digest is the one on the line. */
  method Apply(gh: GitHub, hash: string -> string, info: UpdateInfo, name: string, binary: Binary, works: bool)
      returns (r: ApplyResult)
    modifies binary
    ensures var body, sum := gh.download(info.assetURL), ParseChecksumLine(info.checksumLine, name);
            if body.Some? && sum.Some? && hash(body.value) == sum.value
            then binary.handed == old(binary.handed) + [body.value] && r == (if works then Applied else InstallFailed)
            else binary.handed == old(binary.handed) &&
                 r == (if body.None? then DownloadFailed else if sum.None? then Malformed else Mismatch)
  {
    var body := gh.download(info.assetURL);
    if body.None? {
      return DownloadFailed;
    }
    var sum := ParseChecksumLine(info.checksumLine, name);
    if sum.None? {
      return Malformed;
    }
    if !VerifyChecksum(hash, body.value, sum.value) {
      return Mismatch;
    }
    var ok := binary.Install(body.value, works);
    r := if ok then Applied else InstallFailed;
  }

  /** The two calls in a row: an update that `Check` has returned never fails as
      malformed, and is installed exactly when the body downloaded from the last asset
      of that name has the digest on the first line for it. */
  method CheckThenApply(gh: GitHub, hash: string -> string, current: string, name: string, binary: Binary, works: bool)
      returns (checked: CheckResult, r: Option<ApplyResult>)
    modifies binary
    ensures r.Some? <==> checked.Update?
    ensures r != Some(Malformed)
    ensures checked.Update? ==>
            && gh.latest.Some? && gh.checksums(gh.latest.value.tag).Some?
            && checked.info.assetURL == AssetUrl(gh.latest.value.assets, name)
            && var lines := SplitLines(gh.checksums(gh.latest.value.tag).value);
               FirstLineFor(lines, name) == Some(checked.info.checksumLine)
    ensures binary.handed != old(binary.handed) ==>
            && checked.Update? && gh.download(checked.info.assetURL).Some?
            && binary.handed == old(binary.handed) + [gh.download(checked.info.assetURL).value]
    ensures binary.handed != old(binary.handed) <==>
            checked.Update? && gh.download(checked.info.assetURL).Some? &&
            ParseChecksumLine(checked.info.checksumLine, name) == Some(hash(gh.download(checked.info.assetURL).value))
  {
    checked := Check(gh, current, name);
    if checked.Update? {
      var applied := Apply(gh, hash, checked.info, name, binary, works);
      r := Some(applied);
    } else {
      r := None;
    }
  }

  // ------------------------------------------------------------- manifest round trip

  datatype Entry = Entry(digest: string, name: string)

  predicate IsWord(s: string) {
    s != "" && forall i | 0 <= i < |s| :: !IsSpace(s[i])
  }

  /** A line of a checksums file. */
  function PrintEntry(e: Entry): string {
    e.digest + ("  " + e.name)
  }

  function PrintManifest(entries: seq<Entry>): string {
    if entries == [] then "" else PrintEntry(entries[0]) + ("\n" + PrintManifest(entries[1..]))
  }

  function FirstEntry(entries: seq<Entry>, name: string): Option<Entry> {
    if entries == [] then None
    else if entries[0].name == name then Some(entries[0])
    else FirstEntry(entries[1..], name)
  }

  lemma {:induction false} WordThen(w: string, rest: string)
    requires forall i | 0 <= i < |w| :: !IsSpace(w[i])
    requires rest == "" || IsSpace(rest[0])
    ensures WordLength(w + rest) == |w|
    decreases |w|
  {
    if w == "" {
      assert w + rest == rest;
    } else {
      assert (w + rest)[1..] == w[1..] + rest;
      WordThen(w[1..], rest);
    }
  }

  lemma FieldsOfEntry(e: Entry)
    requires IsWord(e.digest) && IsWord(e.name)
    ensures Fields(PrintEntry(e)) == [e.digest, e.name]
  {
    var line, rest := PrintEntry(e), "  " + e.name;
    assert line[0] == e.digest[0];
    WordThen(e.digest, rest);
    assert line[..|e.digest|] == e.digest && line[|e.digest|..] == rest;
    assert rest[1..][1..] == e.name;
    assert TrimLeft(rest) == TrimLeft(rest[1..]) == TrimLeft(e.name) == e.name;
    WordThen(e.name, "");
    assert e.name + "" == e.name && e.name[..|e.name|] == e.name && e.name[|e.name|..] == "";
    assert Fields("") == [];
    assert Fields(rest) == [e.name];
  }

  lemma ParseOfEntry(e: Entry, name: string)
    requires IsWord(e.digest) && IsWord(e.name)
    ensures ParseChecksumLine(PrintEntry(e), name) == if e.name == name then Some(e.digest) else None
  {
    var line := PrintEntry(e);
    assert line[0] == e.digest[0] && line[|line| - 1] == e.name[|e.name| - 1];
    assert TrimSpace(line) == line;
    FieldsOfEntry(e);
  }

  lemma {:induction false} TrimBlanks(blanks: string, s: string)
    requires (forall i | 0 <= i < |blanks| :: IsSpace(blanks[i])) && s != "" && !IsSpace(s[0])
    ensures TrimLeft(blanks + s) == s
    decreases |blanks|
  {
    if blanks == "" {
      assert blanks + s == s;
    } else {
      assert (blanks + s)[1..] == blanks[1..] + s;
      TrimBlanks(blanks[1..], s);
    }
  }

  lemma LeadingWord(blanks: string, word: string, rest: string)
    requires (forall i | 0 <= i < |blanks| :: IsSpace(blanks[i])) && IsWord(word) && (rest == "" || IsSpace(rest[0]))
    ensures Fields(blanks + (word + rest)) == [word] + Fields(rest)
  {
    TrimBlanks(blanks, word + rest);
    WordThen(word, rest);
    assert (word + rest)[..|word|] == word && (word + rest)[|word|..] == rest;
  }

  /** A line with a third word is no checksum line. */
  lemma ThirdWordRefused(e: Entry, extra: string, name: string)
    requires IsWord(e.digest) && IsWord(e.name) && IsWord(extra)
    ensures ParseChecksumLine(PrintEntry(e) + (" " + extra), name) == None
  {
    var line := PrintEntry(e) + (" " + extra);
    assert line[0] == e.digest[0] && line[|line| - 1] == extra[|extra| - 1];
    assert TrimSpace(line) == line;
    ThreeFields(e, extra);
  }

  lemma ThreeFields(e: Entry, extra: string)
    requires IsWord(e.digest) && IsWord(e.name) && IsWord(extra)
    ensures |Fields(PrintEntry(e) + (" " + extra))| >= 3
  {
    assert PrintEntry(e) + (" " + extra) == "" + (e.digest + ("  " + (e.name + (" " + (extra + "")))));
    LeadingWord("", e.digest, "  " + (e.name + (" " + (extra + ""))));
    LeadingWord("  ", e.name, " " + (extra + ""));
    LeadingWord(" ", extra, "");
  }

  lemma {:induction false} LineThen(line: string, rest: string)
    requires '\n' !in line
    ensures LineLength(line + ("\n" + rest)) == |line|
    decreases |line|
  {
    if line == "" {
      assert line + ("\n" + rest) == "\n" + rest;
    } else {
      assert (line + ("\n" + rest))[1..] == line[1..] + ("\n" + rest);
      LineThen(line[1..], rest);
    }
  }

  lemma SplitFirst(line: string, rest: string)
    requires '\n' !in line
    ensures SplitLines(line + ("\n" + rest)) == [line] + SplitLines(rest)
  {
    LineThen(line, rest);
    var s := line + ("\n" + rest);
    assert s[..|line|] == line && s[|line| + 1..] == rest;
  }

  /** Looking a name up in a printed manifest finds its first entry, and parsing the
      line found gives back that entry's digest; a missing name is not found. */
  lemma {:induction false} ManifestRoundTrip(entries: seq<Entry>, name: string)
    requires forall i | 0 <= i < |entries| :: IsWord(entries[i].digest) && IsWord(entries[i].name)
    ensures var line, e := FirstLineFor(SplitLines(PrintManifest(entries)), name), FirstEntry(entries, name);
            && (line.Some? <==> e.Some?)
            && (e.Some? ==>
                line == Some(PrintEntry(e.value)) && ParseChecksumLine(line.value, name) == Some(e.value.digest))
    decreases |entries|
  {
    if entries == [] {
      assert SplitLines("") == [""];
      assert TrimSpace("") == "" && Fields("") == [];
      assert [""][1..] == [];
    } else {
      var e, rest := entries[0], PrintManifest(entries[1..]);
      EntryOnOneLine(e);
      SplitFirst(PrintEntry(e), rest);
      assert ([PrintEntry(e)] + SplitLines(rest))[1..] == SplitLines(rest);
      ParseOfEntry(e, name);
      ManifestRoundTrip(entries[1..], name);
    }
  }

  lemma EntryOnOneLine(e: Entry)
    requires IsWord(e.digest) && IsWord(e.name)
    ensures '\n' !in PrintEntry(e)
  {
  }
}
