/**
 The settings object: its maps and error list updated line by line, as the
 source's loops do it.
 */
module IniFile {
  import opened Ini

  method LeftTrim(s: string) returns (r: string)
    ensures r == TrimLeft(s)
  {
    var i := 0;
    while i < |s| && IsSpace(s[i])
      invariant i <= |s| && TrimLeft(s[i..]) == TrimLeft(s)
    {
      assert s[i..][1..] == s[i + 1..];
      i := i + 1;
    }
    r := s[i..];
  }

  method RightTrim(s: string) returns (r: string)
    ensures r == TrimRight(s)
  {
    var n := |s|;
    assert s[..n] == s;
    while n > 0 && IsSpace(s[n - 1])
      invariant n <= |s| && TrimRight(s[..n]) == TrimRight(s)
    {
      assert s[..n][..n - 1] == s[..n - 1];
      n := n - 1;
    }
    r := s[..n];
  }

  method Search(s: string, c: char) returns (n: nat)
    ensures n == Find(s, c)
  {
    n := 0;
    while n < |s| && s[n] != c
      invariant n <= |s| && n + Find(s[n..], c) == Find(s, c)
    {
      assert s[n..][1..] == s[n + 1..];
      n := n + 1;
    }
  }

  lemma LinesNext(text: string, n: nat)
    requires text != "" && n == Find(text, '\n')
    ensures Lines(text) == [text[..n]] + Lines(if n < |text| then text[n + 1..] else "")
  {
  }

  lemma ReadNext(r: Reader, line: string, lines: seq<string>)
    ensures ReadLines(r, [line] + lines) == ReadLines(ReadTrimmed(r, TrimRight(TrimLeft(line))), lines)
  {
    assert ([line] + lines)[1..] == lines;
  }

  lemma {:induction false} TextAppend(a: seq<string>, b: seq<string>)
    ensures LinesText(a + b) == LinesText(a) + LinesText(b)
    decreases |a|
  {
    if a == [] {
      assert a + b == b;
    } else {
      assert (a + b)[0] == a[0] && (a + b)[1..] == a[1..] + b;
      TextAppend(a[1..], b);
    }
  }

  lemma OrderNext(keys: set<string>)
    requires keys != {}
    ensures Order(keys)[0] == FirstKey(keys) && Order(keys)[1..] == Order(keys - {FirstKey(keys)})
  {
  }

  class Settings {
    var sections: Sections
    var errors: seq<string>

    constructor ()
      ensures sections == map[] && errors == []
    {
      sections, errors := map[], [];
    }

    /** Adds what `text` says; the first assignment of a variable stands. */
    method Read(text: string)
      modifies this
      ensures Contents(sections, errors) == ReadInto(Contents(old(sections), old(errors)), text)
    {
      hide Find, TrimLeft, TrimRight, ReadLines, Lines, ReadTrimmed;
      var rest, section := text, "";
      while rest != ""
        invariant ReadLines(Reader(Contents(sections, errors), section), Lines(rest)).contents
                  == ReadInto(Contents(old(sections), old(errors)), text)
        decreases |rest|
      {
        var n := Search(rest, '\n');
        var raw := rest[..n];
        LinesNext(rest, n);
        rest := if n < |rest| then rest[n + 1..] else "";
        ReadNext(Reader(Contents(sections, errors), section), raw, Lines(rest));
        var line := LeftTrim(raw);
        line := RightTrim(line);
        section := Take(line, section);
      }
      Nothing(Reader(Contents(sections, errors), section));
    }

    /** Takes in one trimmed line; the result is the current section. */
    method Take(line: string, section: string) returns (next: string)
      modifies this
      ensures Reader(Contents(sections, errors), next) ==
        ReadTrimmed(Reader(Contents(old(sections), old(errors)), section), line)
    {
      hide Find, TrimLeft, TrimRight;
      next := section;
      if |line| > 0 {
        var pos := Search(line, '=');
        if line[0] == ';' {
        } else if line[0] == '[' {
          if line[|line| - 1] == ']' {
            next := line[1..|line| - 1];
          } else {
            errors := errors + [line];
          }
        } else if pos != 0 && pos != |line| {
          var variable := RightTrim(line[..pos]);
          var value := LeftTrim(line[pos + 1..]);
          var sec := if section in sections then sections[section] else map[];
          if variable !in sec {
            sections := sections[section := sec[variable := value]];
          } else {
            errors := errors + [line];
          }
        } else {
          errors := errors + [line];
        }
      }
    }

    /** Writes every section and every variable in key order. */
    method Write() returns (text: string)
      ensures text == Generate(sections)
    {
      hide Order, FirstKey, LinesText, KeyLines;
      text := "";
      var names := sections.Keys;
      while names != {}
        invariant names <= sections.Keys
        invariant text + LinesText(AllLines(sections, Order(names))) == Generate(sections)
        decreases |names|
      {
        OrderNext(names);
        var name := FirstKey(names);
        ghost var later := AllLines(sections, Order(names - {name}));
        TextAppend(SectionLines(name, sections[name]), later);
        var part := WriteSection(name, sections[name]);
        text := text + part;
        names := names - {name};
      }
      NothingWritten();
    }

    method WriteSection(name: string, sec: Section) returns (text: string)
      ensures text == LinesText(SectionLines(name, sec))
    {
      hide Order, FirstKey, LinesText, KeyLines;
      ghost var header := ["[" + name + "]"];
      TextAppend(header + KeyLines(sec, Order(sec.Keys)), [""]);
      TextAppend(header, KeyLines(sec, Order(sec.Keys)));
      OneLineText("[" + name + "]");
      OneLineText("");
      text := "[" + name + "]" + "\n";
      var keys := sec.Keys;
      while keys != {}
        invariant keys <= sec.Keys
        invariant text + LinesText(KeyLines(sec, Order(keys))) == LinesText(header)
          + LinesText(KeyLines(sec, Order(sec.Keys)))
        decreases |keys|
      {
        OrderNext(keys);
        var k := FirstKey(keys);
        var line := k + "=" + sec[k];
        KeyLinesNext(sec, Order(keys));
        TextAppend([line], KeyLines(sec, Order(keys - {k})));
        OneLineText(line);
        text := text + line + "\n";
        keys := keys - {k};
      }
      NothingWritten();
      NoKeys(sec);
      text := text + "\n";
    }
  }

  lemma Nothing(r: Reader)
    ensures ReadLines(r, Lines("")) == r
  {
  }

  lemma NothingWritten()
    ensures Order({}) == [] && LinesText([]) == ""
  {
  }

  lemma NoKeys(sec: Section)
    ensures KeyLines(sec, []) == []
  {
  }

  lemma KeyLinesNext(sec: Section, ks: seq<string>)
    requires ks != [] && forall k :: k in ks ==> k in sec
    ensures KeyLines(sec, ks) == [ks[0] + "=" + sec[ks[0]]] + KeyLines(sec, ks[1..])
  {
  }

  lemma OneLineText(line: string)
    ensures LinesText([line]) == line + "\n"
  {
    assert [line][1..] == [];
    assert line + "\n" + "" == line + "\n";
  }
}
