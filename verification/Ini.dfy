/**
 The settings file: its reader and its writer, and the normal form that writing
 gives to whatever was read.
 */
module Ini {
  type Section = map<string, string>
  type Sections = map<string, Section>

  datatype Contents = Contents(sections: Sections, errors: seq<string>)

  /** The reader between two lines. */
  datatype Reader = Reader(contents: Contents, section: string)

  // ---------------------------------------------------------------- characters and lines

  /** White space of the C locale. */
  predicate IsSpace(c: char) {
    c == ' ' || '\t' <= c <= '\r'
  }

  function TrimLeft(s: string): (r: string)
    ensures r == "" || !IsSpace(r[0])
    ensures |r| <= |s| && r == s[|s| - |r|..]
  {
    if s != "" && IsSpace(s[0]) then TrimLeft(s[1..]) else s
  }

  function TrimRight(s: string): (r: string)
    ensures r == "" || !IsSpace(r[|r| - 1])
    ensures r <= s
  {
    if s != "" && IsSpace(s[|s| - 1]) then TrimRight(s[..|s| - 1]) else s
  }

  /** The position of the first `c`, or the length. */
  function Find(s: string, c: char): (n: nat)
    ensures n <= |s| && (forall i :: 0 <= i < n ==> s[i] != c) && (n < |s| ==> s[n] == c)
  {
    if s == "" || s[0] == c then 0 else 1 + Find(s[1..], c)
  }

  /** The lines `getline` delivers. */
  function Lines(text: string): seq<string>
    decreases |text|
  {
    if text == "" then []
    else
      var n := Find(text, '\n');
      [text[..n]] + Lines(if n < |text| then text[n + 1..] else "")
  }

  // ---------------------------------------------------------------- reading

  function Complain(r: Reader, line: string): Reader {
    r.(contents := r.contents.(errors := r.contents.errors + [line]))
  }

  /** `variable = value`: the first assignment of a variable stands, later ones are errors. */
  function Assign(r: Reader, line: string, variable: string, value: string): Reader {
    var sections := r.contents.sections;
    var sec := if r.section in sections then sections[r.section] else map[];
    if variable in sec then Complain(r, line)
    else r.(contents := r.contents.(sections := sections[r.section := sec[variable := value]]))
  }

  /** One line, already trimmed. */
  function ReadTrimmed(r: Reader, line: string): Reader {
    var pos := Find(line, '=');
    if line == "" || line[0] == ';' then r
    else if line[0] == '[' then
      if line[|line| - 1] == ']' then r.(section := line[1..|line| - 1]) else Complain(r, line)
    else if 0 < pos < |line| then Assign(r, line, TrimRight(line[..pos]), TrimLeft(line[pos + 1..]))
    else Complain(r, line)
  }

  function ReadLines(r: Reader, lines: seq<string>): Reader
    decreases |lines|
  {
    if lines == [] then r else ReadLines(ReadTrimmed(r, TrimRight(TrimLeft(lines[0]))), lines[1..])
  }

  /** `parse` adds to what is already there, starting in the section without a name. */
  function ReadInto(contents: Contents, text: string): Contents {
    ReadLines(Reader(contents, ""), Lines(text)).contents
  }

  function Parse(text: string): Contents {
    ReadInto(Contents(map[], []), text)
  }

  // ---------------------------------------------------------------- writing

  /** The order of the keys of a `std::map`. */
  predicate Before(a: string, b: string) {
    if a == "" then true
    else if b == "" then false
    else a[0] < b[0] || (a[0] == b[0] && Before(a[1..], b[1..]))
  }

  lemma {:induction false} BeforeTotal(a: string, b: string)
    ensures Before(a, b) || Before(b, a)
    ensures Before(a, b) && Before(b, a) ==> a == b
  {
    if a != "" && b != "" && a[0] == b[0] {
      BeforeTotal(a[1..], b[1..]);
      assert a == [a[0]] + a[1..] && b == [b[0]] + b[1..];
    }
  }

  lemma {:induction false} BeforeTransitive(a: string, b: string, c: string)
    requires Before(a, b) && Before(b, c)
    ensures Before(a, c)
  {
    if a == "" {
    } else if a[0] < b[0] || b[0] < c[0] {
      assert a[0] < c[0];
    } else {
      assert a[0] == b[0] == c[0];
      BeforeTransitive(a[1..], b[1..], c[1..]);
    }
  }

  predicate First(k: string, keys: set<string>) {
    k in keys && forall j :: j in keys ==> Before(k, j)
  }

  lemma {:induction false} FirstExists(keys: set<string>) returns (k: string)
    requires keys != {}
    ensures First(k, keys)
    decreases |keys|
  {
    var x :| x in keys;
    var rest := keys - {x};
    BeforeTotal(x, x);
    k := x;
    if rest != {} {
      var y := FirstExists(rest);
      BeforeTotal(x, y);
      if !Before(x, y) {
        k := y;
      }
      forall j | j in keys ensures Before(k, j) {
        if j != x {
          assert j in rest;
          if Before(x, y) {
            BeforeTransitive(x, y, j);
          }
        }
      }
    } else {
      forall j | j in keys ensures j == x {
        assert j !in rest;
      }
    }
  }

  function FirstKey(keys: set<string>): (k: string)
    requires keys != {}
    ensures First(k, keys)
  {
    assert exists k :: First(k, keys) by { var k := FirstExists(keys); }
    assert forall i, j :: First(i, keys) && First(j, keys) ==> i == j by {
      forall i, j | First(i, keys) && First(j, keys) ensures i == j { BeforeTotal(i, j); }
    }
    var k :| First(k, keys);
    k
  }

  /** The keys in the order in which they are written. */
  function Order(keys: set<string>): (ks: seq<string>)
    ensures forall k :: k in ks <==> k in keys
    decreases |keys|
  {
    if keys == {} then []
    else
      var k := FirstKey(keys);
      var ks := [k] + Order(keys - {k});
      assert forall j :: j in keys ==> j == k || j in keys - {k};
      ks
  }

  function KeyLines(sec: Section, ks: seq<string>): seq<string>
    requires forall k :: k in ks ==> k in sec
  {
    if ks == [] then [] else [ks[0] + "=" + sec[ks[0]]] + KeyLines(sec, ks[1..])
  }

  function SectionLines(name: string, sec: Section): seq<string> {
    ["[" + name + "]"] + KeyLines(sec, Order(sec.Keys)) + [""]
  }

  function AllLines(sections: Sections, names: seq<string>): seq<string>
    requires forall n :: n in names ==> n in sections
  {
    if names == [] then [] else SectionLines(names[0], sections[names[0]]) + AllLines(sections, names[1..])
  }

  function LinesText(lines: seq<string>): string {
    if lines == [] then "" else lines[0] + "\n" + LinesText(lines[1..])
  }

  function Generate(sections: Sections): string {
    LinesText(AllLines(sections, Order(sections.Keys)))
  }

  // ---------------------------------------------------------------- what can be read is well formed

  predicate OneLine(s: string) {
    forall i :: 0 <= i < |s| ==> s[i] != '\n'
  }

  predicate Trimmed(s: string) {
    s == "" || (!IsSpace(s[0]) && !IsSpace(s[|s| - 1]))
  }

  predicate GoodKey(k: string) {
    OneLine(k) && Trimmed(k) && k != "" && (forall i :: 0 <= i < |k| ==> k[i] != '=') && k[0] != ';' && k[0] != '['
  }

  predicate GoodValue(v: string) {
    OneLine(v) && Trimmed(v)
  }

  predicate GoodSection(sec: Section) {
    forall k :: k in sec ==> GoodKey(k) && GoodValue(sec[k])
  }

  predicate WellFormed(sections: Sections) {
    forall n :: n in sections ==> OneLine(n) && sections[n] != map[] && GoodSection(sections[n])
  }

  lemma TrimmedLine(raw: string)
    requires OneLine(raw)
    ensures var line := TrimRight(TrimLeft(raw)); OneLine(line) && Trimmed(line)
  {
    hide TrimLeft, TrimRight;
    assert OneLine(TrimLeft(raw));
  }

  /** The parts of an assignment line are a good variable and a good value. */
  lemma GoodParts(line: string)
    requires OneLine(line) && Trimmed(line)
    requires line != "" && line[0] != ';' && line[0] != '[' && 0 < Find(line, '=') < |line|
    ensures GoodKey(TrimRight(line[..Find(line, '=')])) && GoodValue(TrimLeft(line[Find(line, '=') + 1..]))
  {
    hide TrimLeft, TrimRight, Find;
    var pos := Find(line, '=');
    KeepsFirst(line[..pos]);
    var key, after := TrimRight(line[..pos]), line[pos + 1..];
    assert key <= line;
    assert TrimLeft(after) == line[|line| - |TrimLeft(after)|..];
  }

  lemma {:induction false} KeepsFirst(s: string)
    requires s != "" && !IsSpace(s[0])
    ensures TrimRight(s) != ""
  {
    if IsSpace(s[|s| - 1]) {
      KeepsFirst(s[..|s| - 1]);
    }
  }

  lemma ReadTrimmedKeeps(r: Reader, line: string)
    requires OneLine(r.section) && WellFormed(r.contents.sections) && OneLine(line) && Trimmed(line)
    ensures var r' := ReadTrimmed(r, line); OneLine(r'.section) && WellFormed(r'.contents.sections)
  {
    hide GoodKey, GoodValue, Find, TrimLeft, TrimRight;
    if line != "" && line[0] != ';' && line[0] != '[' && 0 < Find(line, '=') < |line| {
      GoodParts(line);
    }
  }

  lemma {:induction false} ReadLinesKeeps(r: Reader, lines: seq<string>)
    requires OneLine(r.section) && WellFormed(r.contents.sections) && forall l :: l in lines ==> OneLine(l)
    ensures WellFormed(ReadLines(r, lines).contents.sections)
    decreases |lines|
  {
    hide WellFormed, ReadTrimmed, OneLine, Trimmed;
    if lines != [] {
      assert lines[0] in lines;
      TrimmedLine(lines[0]);
      ReadTrimmedKeeps(r, TrimRight(TrimLeft(lines[0])));
      ReadLinesKeeps(ReadTrimmed(r, TrimRight(TrimLeft(lines[0]))), lines[1..]);
    }
  }

  lemma {:induction false} LinesAreLines(text: string)
    ensures forall l :: l in Lines(text) ==> OneLine(l)
    decreases |text|
  {
    hide Find;
    if text != "" {
      var n := Find(text, '\n');
      LinesAreLines(if n < |text| then text[n + 1..] else "");
    }
  }

  /** Whatever the text, the sections read from it are well formed. */
  lemma ParseIsWellFormed(text: string)
    ensures WellFormed(Parse(text).sections)
  {
    LinesAreLines(text);
    ReadLinesKeeps(Reader(Contents(map[], []), ""), Lines(text));
  }

  // ---------------------------------------------------------------- what is written is read back

  lemma {:induction false} LinesOfText(lines: seq<string>)
    requires forall l :: l in lines ==> OneLine(l)
    ensures Lines(LinesText(lines)) == lines
    decreases |lines|
  {
    if lines != [] {
      var l, rest := lines[0], LinesText(lines[1..]);
      assert OneLine(l);
      var text := l + "\n" + rest;
      FindIs(text, '\n', |l|);
      assert text[..|l|] == l && text[|l| + 1..] == rest;
      LinesOfText(lines[1..]);
      assert lines == [l] + lines[1..];
    }
  }

  lemma FindIs(s: string, c: char, n: nat)
    requires n < |s| && s[n] == c && forall i :: 0 <= i < n ==> s[i] != c
    ensures Find(s, c) == n
  {
  }

  lemma TrimmedStays(s: string)
    requires Trimmed(s)
    ensures TrimLeft(s) == s && TrimRight(s) == s
  {
  }

  lemma {:induction false} ReadAppend(r: Reader, a: seq<string>, b: seq<string>)
    ensures ReadLines(r, a + b) == ReadLines(ReadLines(r, a), b)
    decreases |a|
  {
    hide ReadTrimmed;
    if a == [] {
      assert a + b == b;
    } else {
      assert (a + b)[0] == a[0] && (a + b)[1..] == a[1..] + b;
      ReadAppend(ReadTrimmed(r, TrimRight(TrimLeft(a[0]))), a[1..], b);
    }
  }

  lemma ReadOne(r: Reader, line: string)
    requires Trimmed(line)
    ensures ReadLines(r, [line]) == ReadTrimmed(r, line)
  {
    TrimmedStays(line);
  }

  lemma HeaderReads(r: Reader, name: string)
    ensures ReadLines(r, ["[" + name + "]"]) == r.(section := name)
  {
    var line := "[" + name + "]";
    ReadOne(r, line);
    assert line[1..|line| - 1] == name;
  }

  lemma KeyReads(r: Reader, k: string, v: string)
    requires GoodKey(k) && GoodValue(v)
    ensures var line := k + "=" + v; ReadLines(r, [line]) == Assign(r, line, k, v)
  {
    hide TrimLeft, TrimRight, Find, ReadLines, Assign;
    var line := k + "=" + v;
    assert Trimmed(line);
    ReadOne(r, line);
    assert line[..|k|] == k && line[|k| + 1..] == v;
    FindIs(line, '=', |k|);
    TrimmedStays(k);
    TrimmedStays(v);
  }

  /** The reader after reading `sec` under `name` into `done`. */
  function Filled(done: Sections, name: string, sec: Section, errors: seq<string>): Reader {
    Reader(Contents(done[name := sec], errors), name)
  }

  function Only(sec: Section, ks: seq<string>): Section {
    map k | k in sec && k in ks :: sec[k]
  }

  predicate Distinct(ks: seq<string>) {
    forall i, j :: 0 <= i < j < |ks| ==> ks[i] != ks[j]
  }

  function SectionOf(r: Reader): Section {
    if r.section in r.contents.sections then r.contents.sections[r.section] else map[]
  }

  lemma OnlyNext(sec: Section, ks: seq<string>, n: nat)
    requires n < |ks| && Distinct(ks) && ks[n] in sec
    ensures ks[n] !in Only(sec, ks[..n])
    ensures Only(sec, ks[..n])[ks[n] := sec[ks[n]]] == Only(sec, ks[..n + 1])
  {
    assert ks[..n + 1] == ks[..n] + [ks[n]];
  }

  lemma KeyLinesFrom(sec: Section, ks: seq<string>, n: nat)
    requires n < |ks| && forall k :: k in ks ==> k in sec
    ensures KeyLines(sec, ks[n..]) == [ks[n] + "=" + sec[ks[n]]] + KeyLines(sec, ks[n + 1..])
  {
    assert ks[n..][0] == ks[n] && ks[n..][1..] == ks[n + 1..];
  }

  /** Reading the lines of the keys from `n` on, when those before have been read. */
  lemma {:induction false} KeysRead(r: Reader, sec: Section, ks: seq<string>, n: nat)
    requires GoodSection(sec) && (forall k :: k in ks ==> k in sec) && Distinct(ks) && n < |ks|
    requires SectionOf(r) == Only(sec, ks[..n])
    ensures ReadLines(r, KeyLines(sec, ks[n..])) ==
      Filled(r.contents.sections, r.section, Only(sec, ks), r.contents.errors)
    decreases |ks| - n
  {
    hide GoodKey, GoodValue, ReadLines, KeyLines, Only, Distinct;
    var k := ks[n];
    var line := k + "=" + sec[k];
    KeyLinesFrom(sec, ks, n);
    KeyReads(r, k, sec[k]);
    ReadAppend(r, [line], KeyLines(sec, ks[n + 1..]));
    OnlyNext(sec, ks, n);
    var next := Assign(r, line, k, sec[k]);
    assert next == Filled(r.contents.sections, r.section, Only(sec, ks[..n + 1]), r.contents.errors);
    if n + 1 < |ks| {
      KeysRead(next, sec, ks, n + 1);
    } else {
      assert ks[..n + 1] == ks && ks[n + 1..] == [];
      ReadNothing(next, sec);
    }
  }

  lemma ReadNothing(r: Reader, sec: Section)
    ensures ReadLines(r, KeyLines(sec, [])) == r && ReadLines(r, [""]) == r
  {
    ReadOne(r, "");
  }

  lemma {:induction false} OrderDistinct(keys: set<string>)
    ensures Distinct(Order(keys))
    decreases |keys|
  {
    if keys != {} {
      OrderDistinct(keys - {FirstKey(keys)});
    }
  }

  /** A whole section is read back into an empty place. */
  lemma SectionRead(r: Reader, name: string, sec: Section)
    requires GoodSection(sec) && sec != map[] && name !in r.contents.sections
    ensures ReadLines(r, SectionLines(name, sec)) == Filled(r.contents.sections, name, sec, r.contents.errors)
  {
    hide GoodKey, GoodValue, ReadLines, KeyLines, Distinct, Order;
    var ks := Order(sec.Keys);
    OrderDistinct(sec.Keys);
    var header, keys := ["[" + name + "]"], KeyLines(sec, ks);
    HeaderReads(r, name);
    ReadAppend(r, header, keys);
    ReadAppend(r, header + keys, [""]);
    var k :| k in sec;
    assert k in ks;
    var r1 := r.(section := name);
    assert Only(sec, ks[..0]) == map[] && ks[0..] == ks && Only(sec, ks) == sec;
    KeysRead(r1, sec, ks, 0);
    ReadNothing(Filled(r.contents.sections, name, sec, r.contents.errors), sec);
  }

  function Chosen(sections: Sections, names: seq<string>): Sections {
    map n | n in sections && n in names :: sections[n]
  }

  lemma ChosenNone(done: Sections, sections: Sections)
    ensures done + Chosen(sections, []) == done
  {
  }

  lemma ChosenNext(done: Sections, sections: Sections, names: seq<string>)
    requires names != [] && names[0] in sections && names[0] !in names[1..]
    ensures done[names[0] := sections[names[0]]] + Chosen(sections, names[1..]) == done + Chosen(sections, names)
  {
    assert names == [names[0]] + names[1..];
  }

  lemma {:induction false} AllRead(r: Reader, sections: Sections, names: seq<string>)
    requires WellFormed(sections) && (forall n :: n in names ==> n in sections && n !in r.contents.sections) &&
      Distinct(names)
    ensures ReadLines(r, AllLines(sections, names)).contents ==
            Contents(r.contents.sections + Chosen(sections, names), r.contents.errors)
    decreases |names|
  {
    hide ReadLines, SectionLines, GoodSection, Distinct, Chosen;
    if names == [] {
      ReadNothing(r, map[]);
      ChosenNone(r.contents.sections, sections);
    } else {
      var name, sec := names[0], sections[names[0]];
      SectionRead(r, name, sec);
      ReadAppend(r, SectionLines(name, sec), AllLines(sections, names[1..]));
      var r1 := Filled(r.contents.sections, name, sec, r.contents.errors);
      DistinctTail(names);
      AllRead(r1, sections, names[1..]);
      ChosenNext(r.contents.sections, sections, names);
    }
  }

  lemma DistinctTail(ks: seq<string>)
    requires Distinct(ks) && ks != []
    ensures Distinct(ks[1..]) && ks[0] !in ks[1..]
  {
  }

  lemma {:induction false} KeyLinesAreLines(sec: Section, ks: seq<string>)
    requires GoodSection(sec) && forall k :: k in ks ==> k in sec
    ensures forall l :: l in KeyLines(sec, ks) ==> OneLine(l)
    decreases |ks|
  {
    if ks != [] {
      assert ks[0] in ks;
      KeyLinesAreLines(sec, ks[1..]);
    }
  }

  lemma {:induction false} AllLinesAreLines(sections: Sections, names: seq<string>)
    requires WellFormed(sections) && forall n :: n in names ==> n in sections
    ensures forall l :: l in AllLines(sections, names) ==> OneLine(l)
    decreases |names|
  {
    hide GoodSection, KeyLines, Order;
    if names != [] {
      var sec := sections[names[0]];
      KeyLinesAreLines(sec, Order(sec.Keys));
      AllLinesAreLines(sections, names[1..]);
    }
  }

  /** Reading undoes writing exactly on the well-formed sets of sections. */
  lemma RoundTripIff(sections: Sections)
    ensures Parse(Generate(sections)) == Contents(sections, []) <==> WellFormed(sections)
  {
    hide WellFormed, ReadLines, AllLines, LinesText, Order, Lines, Distinct;
    if WellFormed(sections) {
      var names := Order(sections.Keys);
      OrderDistinct(sections.Keys);
      AllLinesAreLines(sections, names);
      LinesOfText(AllLines(sections, names));
      var r := Reader(Contents(map[], []), "");
      AllRead(r, sections, names);
      assert r.contents.sections + Chosen(sections, names) == sections;
    } else {
      ParseIsWellFormed(Generate(sections));
    }
  }

  /** Normal form: for every text, writing what was read and reading it again gives the same sections and no errors. */
  lemma NormalForm(text: string)
    ensures Parse(Generate(Parse(text).sections)) == Contents(Parse(text).sections, [])
  {
    ParseIsWellFormed(text);
    RoundTripIff(Parse(text).sections);
  }
}
