/** Text utilities shared by every renderer: joining and splitting lines,
    decimal rendering of counts, the ASCII part of Python's str.title(),
    key humanisation, and the banner / closing-rule shapes. */
module Text {

  // ---------------------------------------------------------------------
  // Joining and splitting

  /** Python's `sep.join(parts)`: the parts in order with `sep` between
      neighbours, so the text starts with the first part. */
  function Join(parts: seq<string>, sep: string): (r: string)
    ensures |parts| == 0 ==> r == ""
    ensures |parts| > 0 ==> parts[0] <= r
  {
    if |parts| == 0 then ""
    else if |parts| == 1 then parts[0]
    else parts[0] + sep + Join(parts[1..], sep)
  }

  /** `"\n".join(lines)`: how every renderer turns its lines into one text.
      The text begins with the first line (the banner). */
  function JoinLines(lines: seq<string>): (r: string)
    ensures |lines| > 0 ==> lines[0] <= r
  {
    Join(lines, "\n")
  }

  /** The joined text ends with the last line. */
  lemma {:induction false} JoinLinesEndsWithLast(lines: seq<string>)
    requires |lines| > 0
    ensures var t := JoinLines(lines); var last := lines[|lines| - 1];
      |last| <= |t| && t[|t| - |last|..] == last
  {
    if |lines| > 1 {
      JoinLinesEndsWithLast(lines[1..]);
      assert JoinLines(lines) == (lines[0] + "\n") + JoinLines(lines[1..]);
    }
  }

  lemma JoinTwo(a: string, b: string, sep: string)
    ensures Join([a, b], sep) == a + sep + b
  {
    assert [a, b][1..] == [b];
  }

  /** A text joined from newline-free lines holds a newline exactly when
      there is more than one line. */
  lemma {:induction false} JoinLinesNewline(lines: seq<string>)
    requires NoNewlines(lines)
    ensures '\n' in JoinLines(lines) <==> |lines| > 1
  {
    if |lines| > 1 {
      assert JoinLines(lines) == lines[0] + "\n" + JoinLines(lines[1..]);
      assert JoinLines(lines)[|lines[0]|] == '\n';
    } else if |lines| == 1 {
      assert lines[0] in lines;
    }
  }

  /** Cuts a text at every newline (Python's `s.split("\n")`). */
  function SplitLines(s: string): (r: seq<string>)
    ensures |r| >= 1
    ensures forall l :: l in r ==> '\n' !in l
  {
    if |s| == 0 then [""]
    else
      var rest := SplitLines(s[1..]);
      if s[0] == '\n' then [""] + rest
      else [[s[0]] + rest[0]] + rest[1..]
  }

  predicate NoNewlines(lines: seq<string>)
  {
    forall l :: l in lines ==> '\n' !in l
  }

  lemma {:induction false} SplitSingle(l: string)
    requires '\n' !in l
    ensures SplitLines(l) == [l]
  {
    if |l| > 0 {
      assert l[0] in l;
      SplitSingle(l[1..]);
      assert [l[0]] + l[1..] == l;
    }
  }

  lemma {:induction false} SplitCons(l: string, rest: string)
    requires '\n' !in l
    ensures SplitLines(l + "\n" + rest) == [l] + SplitLines(rest)
  {
    var s := l + "\n" + rest;
    if |l| == 0 {
      assert s[1..] == rest;
    } else {
      assert s[1..] == l[1..] + "\n" + rest;
      SplitCons(l[1..], rest);
      assert [l[0]] + l[1..] == l;
    }
  }

  /** Splitting the joined lines gives the lines back, as long as none of
      them holds a newline of its own. */
  lemma {:induction false} SplitJoinLines(lines: seq<string>)
    requires |lines| >= 1 && NoNewlines(lines)
    ensures SplitLines(JoinLines(lines)) == lines
  {
    if |lines| == 1 {
      SplitSingle(lines[0]);
    } else {
      SplitJoinLines(lines[1..]);
      SplitCons(lines[0], JoinLines(lines[1..]));
      assert [lines[0]] + lines[1..] == lines;
    }
  }

  /** Joining the pieces of a split text gives the text back. */
  lemma {:induction false} JoinSplitLines(s: string)
    ensures JoinLines(SplitLines(s)) == s
  {
    if |s| > 0 {
      var rest := SplitLines(s[1..]);
      JoinSplitLines(s[1..]);
      if s[0] == '\n' {
        assert JoinLines([""] + rest) == "" + "\n" + JoinLines(rest);
        assert s == [s[0]] + s[1..];
      } else {
        var r := [[s[0]] + rest[0]] + rest[1..];
        if |rest| == 1 {
          assert s == [s[0]] + s[1..];
        } else {
          assert r[1..] == rest[1..];
          assert JoinLines(rest) == rest[0] + "\n" + JoinLines(rest[1..]);
          assert s == [s[0]] + s[1..];
        }
      }
    }
  }

  // ---------------------------------------------------------------------
  // Decimal rendering (Python's str() of a non-negative int)

  predicate IsDigit(c: char)
  {
    '0' <= c <= '9'
  }

  function DigitChar(d: nat): (c: char)
    requires d < 10
    ensures IsDigit(c)
  {
    ('0' as int + d) as char
  }

  function NatToString(n: nat): (s: string)
    ensures |s| >= 1
    ensures forall i :: 0 <= i < |s| ==> IsDigit(s[i])
  {
    if n < 10 then [DigitChar(n)]
    else NatToString(n / 10) + [DigitChar(n % 10)]
  }

  function DigitValue(c: char): (d: nat)
    requires IsDigit(c)
    ensures d < 10
  {
    c as int - '0' as int
  }

  /** Reads a run of decimal digits back into a number. */
  function ParseDecimal(s: string): nat
    requires forall i :: 0 <= i < |s| ==> IsDigit(s[i])
  {
    if |s| == 0 then 0
    else ParseDecimal(s[..|s| - 1]) * 10 + DigitValue(s[|s| - 1])
  }

  /** The first two item numbers. */
  lemma SmallNumbers()
    ensures NatToString(1) == "1" && NatToString(2) == "2"
  {
    assert DigitChar(1) == '1' && DigitChar(2) == '2';
  }

  /** A rendered number reads back as itself: the numbers a renderer
      prints are the positions and lengths it means. */
  lemma {:induction false} ParseNatToString(n: nat)
    ensures ParseDecimal(NatToString(n)) == n
  {
    var s := NatToString(n);
    if n >= 10 {
      ParseNatToString(n / 10);
      assert s[..|s| - 1] == NatToString(n / 10);
    }
  }

  /** Distinct numbers are rendered differently. */
  lemma NatToStringInjective(m: nat, n: nat)
    requires NatToString(m) == NatToString(n)
    ensures m == n
  {
    ParseNatToString(m);
    ParseNatToString(n);
  }

  // ---------------------------------------------------------------------
  // Title-casing and key humanisation (ASCII)

  predicate IsUpper(c: char)
  {
    'A' <= c <= 'Z'
  }

  predicate IsLower(c: char)
  {
    'a' <= c <= 'z'
  }

  /** A cased character in the sense of str.title(), restricted to ASCII. */
  predicate IsCased(c: char)
  {
    IsUpper(c) || IsLower(c)
  }

  function ToUpper(c: char): (u: char)
    ensures IsCased(u) == IsCased(c)
    ensures !IsLower(u)
    ensures IsLower(c) ==> u as int == c as int - 32
    ensures !IsLower(c) ==> u == c
  {
    if IsLower(c) then (c as int - 32) as char else c
  }

  function ToLower(c: char): (l: char)
    ensures IsCased(l) == IsCased(c)
    ensures !IsUpper(l)
    ensures IsUpper(c) ==> l as int == c as int + 32
    ensures !IsUpper(c) ==> l == c
  {
    if IsUpper(c) then (c as int + 32) as char else c
  }

  /** str.title() from a position whose preceding character was cased
      (`afterCased`) or not: a cased character after a cased one is lowered,
      any other cased character is raised, everything else is kept. */
  function TitleFrom(s: string, afterCased: bool): (r: string)
    ensures |r| == |s|
    ensures forall i :: 0 <= i < |s| ==> IsCased(r[i]) == IsCased(s[i])
    ensures forall i :: 0 <= i < |s| && !IsCased(s[i]) ==> r[i] == s[i]
    ensures forall i :: 0 <= i < |s| && IsCased(s[i]) ==> r[i] == ToUpper(s[i]) || r[i] == ToLower(s[i])
  {
    if |s| == 0 then ""
    else
      var c := s[0];
      var d := if !IsCased(c) then c else if afterCased then ToLower(c) else ToUpper(c);
      [d] + TitleFrom(s[1..], IsCased(c))
  }

  /** `s.title()`: a letter is upper-case exactly when it starts a word,
      i.e. comes first or after a non-letter; all else is lower-case or
      unchanged. */
  function Title(s: string): (r: string)
    ensures |r| == |s|
    ensures forall i :: 0 <= i < |s| ==> IsCased(r[i]) == IsCased(s[i])
    ensures forall i :: 0 <= i < |s| && IsCased(s[i]) ==> (IsUpper(r[i]) <==> i == 0 || !IsCased(s[i - 1]))
    ensures forall i :: 0 <= i < |s| && !IsCased(s[i]) ==> r[i] == s[i]
    ensures forall i :: 0 <= i < |s| && IsCased(s[i]) ==> r[i] == ToUpper(s[i]) || r[i] == ToLower(s[i])
  {
    TitleFromWordStarts(s, false);
    TitleFrom(s, false)
  }

  /** Where title-casing puts capitals: a letter comes out upper-case
      exactly when the character before it (or the starting state) is not
      a letter. */
  lemma {:induction false} TitleFromWordStarts(s: string, afterCased: bool)
    ensures var r := TitleFrom(s, afterCased);
      forall i :: 0 <= i < |s| && IsCased(s[i]) ==>
        (IsUpper(r[i]) <==> if i == 0 then !afterCased else !IsCased(s[i - 1]))
  {
    if |s| > 0 {
      var r := TitleFrom(s, afterCased);
      TitleFromWordStarts(s[1..], IsCased(s[0]));
      assert r[1..] == TitleFrom(s[1..], IsCased(s[0]));
      forall i | 0 < i < |s| && IsCased(s[i])
        ensures IsUpper(r[i]) <==> !IsCased(s[i - 1])
      {
        assert r[i] == r[1..][i - 1] && s[i] == s[1..][i - 1];
        if i > 1 {
          assert s[i - 1] == s[1..][i - 2];
        }
      }
    }
  }

  /** Title-casing a title-cased text changes nothing. */
  lemma {:induction false} TitleFromIdempotent(s: string, afterCased: bool)
    ensures TitleFrom(TitleFrom(s, afterCased), afterCased) == TitleFrom(s, afterCased)
  {
    if |s| > 0 {
      var t := TitleFrom(s, afterCased);
      assert t[1..] == TitleFrom(s[1..], IsCased(s[0]));
      TitleFromIdempotent(s[1..], IsCased(s[0]));
    }
  }

  /** `s.replace('_', ' ')` */
  function ReplaceUnderscores(s: string): (r: string)
    ensures |r| == |s| && '_' !in r
    ensures forall i :: 0 <= i < |s| ==> (s[i] == '_' ==> r[i] == ' ') && (s[i] != '_' ==> r[i] == s[i])
  {
    seq(|s|, i requires 0 <= i < |s| => if s[i] == '_' then ' ' else s[i])
  }

  /** `key.replace('_', ' ').title()`: the display label of a field name. */
  function Humanize(key: string): (r: string)
    ensures |r| == |key|
    ensures '_' !in r
  {
    var spaced := ReplaceUnderscores(key);
    var r := Title(spaced);
    assert forall i :: 0 <= i < |r| ==> r[i] != '_' by {
      forall i | 0 <= i < |r| ensures r[i] != '_' {
        if !IsCased(spaced[i]) {
          assert r[i] == spaced[i];
        }
      }
    }
    r
  }

  /** Humanising a label a second time changes nothing. */
  lemma HumanizeIdempotent(key: string)
    ensures Humanize(Humanize(key)) == Humanize(key)
  {
    var h := Humanize(key);
    assert ReplaceUnderscores(h) == h;
    TitleFromIdempotent(ReplaceUnderscores(key), false);
  }

  /** A non-empty run of lower-case ASCII letters, one word of a
      snake_case field name. */
  predicate IsLowerWord(w: string)
  {
    |w| > 0 && forall i :: 0 <= i < |w| ==> IsLower(w[i])
  }

  function Capitalize(w: string): (r: string)
    requires IsLowerWord(w)
  {
    [ToUpper(w[0])] + w[1..]
  }

  function CapitalizeAll(words: seq<string>): seq<string>
    requires forall i :: 0 <= i < |words| ==> IsLowerWord(words[i])
  {
    seq(|words|, i requires 0 <= i < |words| => Capitalize(words[i]))
  }

  lemma {:induction false} TitleFromAppend(a: string, b: string, afterCased: bool)
    ensures TitleFrom(a + b, afterCased)
         == TitleFrom(a, afterCased) + TitleFrom(b, if |a| == 0 then afterCased else IsCased(a[|a| - 1]))
  {
    if |a| > 0 {
      assert (a + b)[1..] == a[1..] + b;
      TitleFromAppend(a[1..], b, IsCased(a[0]));
    } else {
      assert a + b == b;
    }
  }

  lemma {:induction false} TitleLowerAfterCased(w: string)
    requires forall i :: 0 <= i < |w| ==> IsLower(w[i])
    ensures TitleFrom(w, true) == w
  {
    if |w| > 0 {
      TitleLowerAfterCased(w[1..]);
      assert [w[0]] + w[1..] == w;
    }
  }

  lemma TitleLowerWord(w: string)
    requires IsLowerWord(w)
    ensures TitleFrom(w, false) == Capitalize(w)
  {
    TitleLowerAfterCased(w[1..]);
  }

  /** Title-casing lower-case words separated by single spaces capitalises
      each word. */
  lemma {:induction false} TitleSpacedWords(words: seq<string>)
    requires |words| >= 1
    requires forall i :: 0 <= i < |words| ==> IsLowerWord(words[i])
    ensures TitleFrom(Join(words, " "), false) == Join(CapitalizeAll(words), " ")
  {
    if |words| == 1 {
      TitleLowerWord(words[0]);
      assert CapitalizeAll(words) == [Capitalize(words[0])];
    } else {
      var w := words[0];
      var rest := Join(words[1..], " ");
      TitleSpacedWords(words[1..]);
      JoinCons(words, " ");
      TitleWordThenRest(w, rest);
      JoinCapitalizedCons(words);
    }
  }

  lemma JoinCons(parts: seq<string>, sep: string)
    requires |parts| > 1
    ensures Join(parts, sep) == parts[0] + (sep + Join(parts[1..], sep))
  {
  }

  lemma JoinCapitalizedCons(words: seq<string>)
    requires |words| > 1
    requires forall i :: 0 <= i < |words| ==> IsLowerWord(words[i])
    ensures Join(CapitalizeAll(words), " ") == Capitalize(words[0]) + " " + Join(CapitalizeAll(words[1..]), " ")
  {
    var caps := CapitalizeAll(words);
    assert |caps| == |words| && |CapitalizeAll(words[1..])| == |words| - 1;
    assert caps[1..] == CapitalizeAll(words[1..]);
  }

  lemma TitleWordThenRest(w: string, rest: string)
    requires IsLowerWord(w)
    ensures TitleFrom(w + (" " + rest), false) == Capitalize(w) + " " + TitleFrom(rest, false)
  {
    TitleLowerWord(w);
    TitleFromAppend(w, " " + rest, false);
    assert IsCased(w[|w| - 1]);
    assert (" " + rest)[1..] == rest;
    assert TitleFrom(" " + rest, true) == " " + TitleFrom(rest, false);
  }

  lemma {:induction false} ReplaceSnakeCase(words: seq<string>)
    requires |words| >= 1
    requires forall i :: 0 <= i < |words| ==> IsLowerWord(words[i])
    ensures ReplaceUnderscores(Join(words, "_")) == Join(words, " ")
  {
    if |words| == 1 {
      assert ReplaceUnderscores(words[0]) == words[0];
    } else {
      var w := words[0];
      ReplaceSnakeCase(words[1..]);
      var a := Join(words[1..], "_");
      assert ReplaceUnderscores(w + "_" + a) == ReplaceUnderscores(w) + " " + ReplaceUnderscores(a);
      assert ReplaceUnderscores(w) == w;
    }
  }

  /** A snake_case key of lower-case words is displayed as those words,
      each capitalised, separated by single spaces. */
  lemma HumanizeSnakeCase(words: seq<string>)
    requires |words| >= 1
    requires forall i :: 0 <= i < |words| ==> IsLowerWord(words[i])
    ensures Humanize(Join(words, "_")) == Join(CapitalizeAll(words), " ")
  {
    ReplaceSnakeCase(words);
    TitleSpacedWords(words);
  }

  lemma HumanizeTwoWords(w1: string, w2: string)
    requires IsLowerWord(w1) && IsLowerWord(w2)
    ensures Humanize(w1 + "_" + w2) == Capitalize(w1) + " " + Capitalize(w2)
  {
    HumanizeSnakeCase([w1, w2]);
  }

  lemma HumanizeExample()
    ensures Humanize("jumlah_mahasiswa") == "Jumlah Mahasiswa"
  {
    ExampleWords();
    HumanizeTwoWords("jumlah", "mahasiswa");
  }

  lemma ExampleWords()
    ensures IsLowerWord("jumlah") && IsLowerWord("mahasiswa")
    ensures "Jumlah Mahasiswa" == Capitalize("jumlah") + " " + Capitalize("mahasiswa")
    ensures "jumlah" + "_" + "mahasiswa" == "jumlah_mahasiswa"
  {
  }

  // ---------------------------------------------------------------------
  // Banners

  /** `f"--- {title} ---"`: the title framed by three dashes and a space
      on each side, eight characters longer than the title. */
  function Header(title: string): (r: string)
    ensures |r| == |title| + 8
    ensures r[..4] == "--- " && r[4..|r| - 4] == title && r[|r| - 4..] == " ---"
  {
    "--- " + title + " ---"
  }

  /** `"-" * n` */
  function Rule(n: nat): (r: string)
    ensures |r| == n
    ensures forall i :: 0 <= i < n ==> r[i] == '-'
  {
    seq(n, _ => '-')
  }

  /** The closing rule `"-" * (len(title) + 8)` is exactly as long as the
      title banner. */
  lemma ClosingRuleMatchesHeader(title: string)
    ensures |Rule(|title| + 8)| == |Header(title)|
  {
  }

  // ---------------------------------------------------------------------
  // Sequence helpers

  lemma PrefixRest<T>(a: seq<T>, s: seq<T>) returns (rest: seq<T>)
    requires a <= s
    ensures s == a + rest
  {
    rest := s[|a|..];
    assert s == s[..|a|] + rest;
  }

  lemma BlockInside<T>(lines: seq<T>, first: T, middle: seq<T>, last: T, pre: seq<T>, b: seq<T>, rest: seq<T>)
    requires lines == [first] + middle + [last]
    requires middle == pre + b + rest
    ensures 1 + |pre| + |b| < |lines|
    ensures forall k :: 0 <= k < |b| ==> lines[1 + |pre| + k] == b[k]
  {
  }
}
