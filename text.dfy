/**
 * The string helpers the scraper applies to names and scraped values:
 * the URL slug of a province or city name (modules/extract.py:55-57 and
 * 163-165), the removal of thousands separators (extract.py:77, 92-100,
 * 122) and Python's substring test `name in title` (extract.py:72, 183).
 */
module Text {

  /** The characters Python's `str.split()` without arguments treats as whitespace. */
  predicate IsSpace(c: char)
  {
    var n := c as int;
    n == 0x20 || 0x09 <= n <= 0x0D || 0x1C <= n <= 0x1F || n == 0x85 || n == 0xA0
    || n == 0x1680 || 0x2000 <= n <= 0x200A || n == 0x2028 || n == 0x2029
    || n == 0x202F || n == 0x205F || n == 0x3000
  }

  predicate NoSpace(s: string)
  {
    forall i | 0 <= i < |s| :: !IsSpace(s[i])
  }

  predicate IsUpper(c: char)
  {
    'A' <= c <= 'Z' || ('\U{C0}' <= c <= '\U{DE}' && c != '\U{D7}')
  }

  /** `str.lower()` on one character, for the ASCII and Latin-1 letters. */
  function LowerChar(c: char): (d: char)
    ensures !IsUpper(d)
    ensures IsSpace(d) == IsSpace(c)
    ensures !IsUpper(c) ==> d == c
    ensures IsUpper(c) ==> d as int == c as int + 32
  {
    if IsUpper(c) then (c as int + 32) as char else c
  }

  function Lower(s: string): (r: string)
    ensures |r| == |s|
    ensures forall i | 0 <= i < |r| :: !IsUpper(r[i]) && IsSpace(r[i]) == IsSpace(s[i])
    ensures forall i | 0 <= i < |s| :: if IsUpper(s[i]) then r[i] as int == s[i] as int + 32 else r[i] == s[i]
  {
    seq(|s|, i requires 0 <= i < |s| => LowerChar(s[i]))
  }

  /** The leading whitespace of `s` removed. */
  function SkipSpaces(s: string): (r: string)
    ensures |r| <= |s|
    ensures r != [] ==> !IsSpace(r[0])
  {
    if s != [] && IsSpace(s[0]) then SkipSpaces(s[1..]) else s
  }

  /** What SkipSpaces removes is a run of whitespace, and what it keeps is the rest. */
  lemma {:induction false} SkipSpacesSplits(s: string)
    ensures SkipSpaces(s) == s[|s| - |SkipSpaces(s)|..]
    ensures forall i | 0 <= i < |s| - |SkipSpaces(s)| :: IsSpace(s[i])
  {
    if s != [] && IsSpace(s[0]) {
      SkipSpacesSplits(s[1..]);
    }
  }

  /** The longest prefix of `s` without whitespace. */
  function WordPrefix(s: string): (w: string)
    ensures |w| <= |s|
    ensures s != [] && !IsSpace(s[0]) ==> w != []
  {
    if s != [] && !IsSpace(s[0]) then [s[0]] + WordPrefix(s[1..]) else []
  }

  /** WordPrefix takes a whitespace-free prefix and stops only at whitespace or the end. */
  lemma {:induction false} WordPrefixSplits(s: string)
    ensures WordPrefix(s) == s[..|WordPrefix(s)|]
    ensures NoSpace(WordPrefix(s))
    ensures |WordPrefix(s)| < |s| ==> IsSpace(s[|WordPrefix(s)|])
  {
    if s != [] && !IsSpace(s[0]) {
      WordPrefixSplits(s[1..]);
      var w := WordPrefix(s[1..]);
      assert WordPrefix(s) == [s[0]] + w;
      forall i | 0 <= i < |[s[0]] + w| ensures !IsSpace(([s[0]] + w)[i]) {
        if i > 0 {
          assert ([s[0]] + w)[i] == w[i - 1];
        }
      }
    }
  }

  /** Python's `s.split()`: the maximal runs of non-whitespace characters, in order. */
  function Words(s: string): (ws: seq<string>)
    decreases |s|
  {
    var t := SkipSpaces(s);
    if t == [] then []
    else
      var w := WordPrefix(t);
      [w] + Words(t[|w|..])
  }

  /** Every word is non-empty and holds no whitespace. */
  lemma {:induction false} WordsAreWords(s: string)
    ensures forall i | 0 <= i < |Words(s)| :: Words(s)[i] != [] && NoSpace(Words(s)[i])
    decreases |s|
  {
    var t := SkipSpaces(s);
    if t != [] {
      var w := WordPrefix(t);
      WordPrefixSplits(t);
      WordsAreWords(t[|w|..]);
      assert Words(s) == [w] + Words(t[|w|..]);
    }
  }

  /** `sep.join(parts)`. */
  function Join(parts: seq<string>, sep: string): (joined: string)
  {
    if parts == [] then []
    else if |parts| == 1 then parts[0]
    else parts[0] + sep + Join(parts[1..], sep)
  }

  /**
   * The URL path segment of a province or city name: its words, each
   * lower-cased, joined by the literal `%20`.
   */
  function Slug(name: string): (slug: string)
  {
    Join(LowerAll(Words(name)), "%20")
  }

  /** `[word.lower() for word in ws]`. */
  function LowerAll(ws: seq<string>): (r: seq<string>)
    ensures |r| == |ws| && forall i | 0 <= i < |ws| :: r[i] == Lower(ws[i])
  {
    seq(|ws|, i requires 0 <= i < |ws| => Lower(ws[i]))
  }

  /** Every character of `s` that is not whitespace, in order. */
  function NonSpace(s: string): (r: string)
    ensures NoSpace(r)
  {
    if s == [] then []
    else (if IsSpace(s[0]) then [] else [s[0]]) + NonSpace(s[1..])
  }

  function Concat(ws: seq<string>): (text: string)
  {
    if ws == [] then [] else ws[0] + Concat(ws[1..])
  }

  lemma {:induction false} NonSpaceAppend(a: string, b: string)
    ensures NonSpace(a + b) == NonSpace(a) + NonSpace(b)
  {
    if a != [] {
      assert (a + b)[1..] == a[1..] + b;
      NonSpaceAppend(a[1..], b);
    } else {
      assert a + b == b;
    }
  }

  lemma {:induction false} NonSpaceOfSpaces(s: string)
    requires forall i | 0 <= i < |s| :: IsSpace(s[i])
    ensures NonSpace(s) == []
  {
    if s != [] {
      NonSpaceOfSpaces(s[1..]);
    }
  }

  lemma {:induction false} NonSpaceOfWord(s: string)
    requires NoSpace(s)
    ensures NonSpace(s) == s
  {
    if s != [] {
      NonSpaceOfWord(s[1..]);
      assert s == [s[0]] + s[1..];
    }
  }

  /** Skipping leading whitespace loses no non-whitespace character. */
  lemma SkipKeepsText(s: string)
    ensures NonSpace(SkipSpaces(s)) == NonSpace(s)
  {
    var t := SkipSpaces(s);
    SkipSpacesSplits(s);
    var pre := s[..|s| - |t|];
    assert s == pre + t;
    NonSpaceAppend(pre, t);
    NonSpaceOfSpaces(pre);
  }

  /** Taking the first word off loses no non-whitespace character. */
  lemma WordKeepsText(t: string)
    ensures NonSpace(t) == WordPrefix(t) + NonSpace(t[|WordPrefix(t)|..])
  {
    var w := WordPrefix(t);
    WordPrefixSplits(t);
    assert t == w + t[|w|..];
    NonSpaceAppend(w, t[|w|..]);
    NonSpaceOfWord(w);
  }

  lemma ConcatCons(w: string, ws: seq<string>)
    ensures Concat([w] + ws) == w + Concat(ws)
  {
    assert ([w] + ws)[1..] == ws;
  }

  /**
   * Splitting loses only whitespace: the words, concatenated, are exactly
   * the non-whitespace characters of the name, in order.
   */
  lemma {:induction false} WordsKeepText(s: string)
    ensures Concat(Words(s)) == NonSpace(s)
    decreases |s|
  {
    var t := SkipSpaces(s);
    SkipKeepsText(s);
    if t != [] {
      var w := WordPrefix(t);
      var rest := t[|w|..];
      WordKeepsText(t);
      WordsKeepText(rest);
      ConcatCons(w, Words(rest));
    }
  }

  /** A non-empty name without whitespace is a single word. */
  lemma {:induction false} OneWord(s: string)
    requires s != [] && NoSpace(s)
    ensures Words(s) == [s]
  {
    assert SkipSpaces(s) == s;
    var w := WordPrefix(s);
    WordPrefixSplits(s);
    assert |w| == |s|;
    assert w == s;
    assert SkipSpaces(s[|s|..]) == [];
  }

  lemma {:induction false} JoinNoSpace(parts: seq<string>, sep: string)
    requires NoSpace(sep)
    requires forall i | 0 <= i < |parts| :: NoSpace(parts[i])
    ensures NoSpace(Join(parts, sep))
  {
    if |parts| > 1 {
      JoinNoSpace(parts[1..], sep);
      var r := Join(parts[1..], sep);
      assert Join(parts, sep) == parts[0] + sep + r;
      forall i | 0 <= i < |parts[0] + sep + r|
        ensures !IsSpace((parts[0] + sep + r)[i])
      {
        if i < |parts[0]| {
          assert (parts[0] + sep + r)[i] == parts[0][i];
        } else if i < |parts[0]| + |sep| {
          assert (parts[0] + sep + r)[i] == sep[i - |parts[0]|];
        } else {
          assert (parts[0] + sep + r)[i] == r[i - |parts[0]| - |sep|];
        }
      }
    }
  }

  /** A slug never contains whitespace and never an upper-case letter. */
  lemma SlugIsClean(name: string)
    ensures NoSpace(Slug(name))
    ensures forall i | 0 <= i < |Slug(name)| :: !IsUpper(Slug(name)[i])
  {
    var lowered := LowerAll(Words(name));
    WordsAreWords(name);
    LoweredWordsClean(Words(name));
    assert NoSpace("%20");
    assert forall i | 0 <= i < |"%20"| :: !IsUpper("%20"[i]);
    JoinNoSpace(lowered, "%20");
    JoinNoUpper(lowered, "%20");
  }

  lemma LoweredWordsClean(ws: seq<string>)
    requires forall i | 0 <= i < |ws| :: NoSpace(ws[i])
    ensures forall i | 0 <= i < |ws| :: NoSpace(LowerAll(ws)[i])
    ensures forall i, j | 0 <= i < |ws| && 0 <= j < |LowerAll(ws)[i]| :: !IsUpper(LowerAll(ws)[i][j])
  {
    var r := LowerAll(ws);
    forall i | 0 <= i < |ws| ensures NoSpace(r[i]) {
      assert r[i] == Lower(ws[i]);
    }
  }

  lemma {:induction false} JoinNoUpper(parts: seq<string>, sep: string)
    requires forall i | 0 <= i < |sep| :: !IsUpper(sep[i])
    requires forall i, j | 0 <= i < |parts| && 0 <= j < |parts[i]| :: !IsUpper(parts[i][j])
    ensures forall i | 0 <= i < |Join(parts, sep)| :: !IsUpper(Join(parts, sep)[i])
  {
    if |parts| > 1 {
      JoinNoUpper(parts[1..], sep);
      var r := Join(parts[1..], sep);
      assert Join(parts, sep) == parts[0] + sep + r;
      forall i | 0 <= i < |parts[0] + sep + r|
        ensures !IsUpper((parts[0] + sep + r)[i])
      {
        if i < |parts[0]| {
          assert (parts[0] + sep + r)[i] == parts[0][i];
        } else if i < |parts[0]| + |sep| {
          assert (parts[0] + sep + r)[i] == sep[i - |parts[0]|];
        } else {
          assert (parts[0] + sep + r)[i] == r[i - |parts[0]| - |sep|];
        }
      }
    }
  }

  /** A one-word name's slug is the name lower-cased. */
  lemma SlugOfOneWord(name: string)
    requires name != [] && NoSpace(name)
    ensures Slug(name) == Lower(name)
  {
    OneWord(name);
  }

  /** The slug of a two-word name is the two words, lower-cased, around `%20`. */
  lemma SlugOfTwoWords(a: string, b: string, gap: string)
    requires a != [] && NoSpace(a) && b != [] && NoSpace(b)
    requires gap != [] && forall i | 0 <= i < |gap| :: IsSpace(gap[i])
    ensures Slug(a + gap + b) == Lower(a) + "%20" + Lower(b)
  {
    TwoWords(a, b, gap);
    assert LowerAll([a, b]) == [Lower(a), Lower(b)];
    JoinTwo(Lower(a), Lower(b), "%20");
  }

  lemma TwoWords(a: string, b: string, gap: string)
    requires a != [] && NoSpace(a) && b != [] && NoSpace(b)
    requires gap != [] && forall i | 0 <= i < |gap| :: IsSpace(gap[i])
    ensures Words(a + gap + b) == [a, b]
  {
    assert a + gap + b == a + (gap + b);
    WordsOfWordThenRest(a, gap + b);
    WordsAfterSpaces(gap, b);
    OneWord(b);
  }

  lemma JoinTwo(x: string, y: string, sep: string)
    ensures Join([x, y], sep) == x + sep + y
  {
    assert [x, y][1..] == [y];
  }

  lemma WordsOfWordThenRest(a: string, tail: string)
    requires a != [] && NoSpace(a)
    requires tail != [] && IsSpace(tail[0])
    ensures Words(a + tail) == [a] + Words(tail)
  {
    assert SkipSpaces(a + tail) == a + tail;
    WordOfPrefix(a, tail);
    assert (a + tail)[|a|..] == tail;
  }

  lemma WordsAfterSpaces(gap: string, b: string)
    requires forall i | 0 <= i < |gap| :: IsSpace(gap[i])
    requires b != [] && !IsSpace(b[0])
    ensures Words(gap + b) == Words(b)
  {
    SkipOfSpaces(gap, b);
    assert SkipSpaces(b) == b;
  }

  lemma {:induction false} WordOfPrefix(a: string, tail: string)
    requires NoSpace(a)
    requires tail != [] && IsSpace(tail[0])
    ensures WordPrefix(a + tail) == a
  {
    if a != [] {
      assert (a + tail)[1..] == a[1..] + tail;
      WordOfPrefix(a[1..], tail);
      assert a == [a[0]] + a[1..];
    } else {
      assert a + tail == tail;
    }
  }

  lemma {:induction false} SkipOfSpaces(gap: string, b: string)
    requires forall i | 0 <= i < |gap| :: IsSpace(gap[i])
    requires b != [] && !IsSpace(b[0])
    ensures SkipSpaces(gap + b) == b
  {
    if gap != [] {
      assert (gap + b)[1..] == gap[1..] + b;
      SkipOfSpaces(gap[1..], b);
    } else {
      assert gap + b == b;
    }
  }

  /** `s.replace(',', '')`: every comma removed, everything else kept in order. */
  function StripCommas(s: string): (r: string)
    ensures ',' !in r
    ensures |r| <= |s|
  {
    if s == [] then []
    else (if s[0] == ',' then [] else [s[0]]) + StripCommas(s[1..])
  }

  lemma {:induction false} StripCommasAppend(a: string, b: string)
    ensures StripCommas(a + b) == StripCommas(a) + StripCommas(b)
  {
    if a != [] {
      assert (a + b)[1..] == a[1..] + b;
      StripCommasAppend(a[1..], b);
    } else {
      assert a + b == b;
    }
  }

  /** A string without commas is left as it is. */
  lemma {:induction false} StripCommasNoComma(s: string)
    requires ',' !in s
    ensures StripCommas(s) == s
  {
    if s != [] {
      assert s == [s[0]] + s[1..];
      StripCommasNoComma(s[1..]);
    }
  }

  /** Stripping twice is stripping once. */
  lemma StripCommasIdempotent(s: string)
    ensures StripCommas(StripCommas(s)) == StripCommas(s)
  {
    StripCommasNoComma(StripCommas(s));
  }

  /** The number of characters that are not commas. */
  function CountNonComma(s: string): (n: nat)
  {
    if s == [] then 0 else (if s[0] == ',' then 0 else 1) + CountNonComma(s[1..])
  }

  /** Only commas are dropped: the result is as long as the count of non-comma characters. */
  lemma {:induction false} StripCommasLength(s: string)
    ensures |StripCommas(s)| == CountNonComma(s)
  {
    if s != [] {
      StripCommasLength(s[1..]);
    }
  }

  /** A leading comma is dropped. */
  lemma StripCommasLeadingComma(b: string)
    ensures StripCommas([','] + b) == StripCommas(b)
  {
    assert ([','] + b)[1..] == b;
  }

  /** A thousands separator between two comma-free parts is dropped and the parts joined. */
  lemma {:induction false} StripCommasSeparator(a: string, b: string)
    requires ',' !in a && ',' !in b
    ensures StripCommas(a + [','] + b) == a + b
  {
    if a == [] {
      assert a + [','] + b == [','] + b;
      StripCommasLeadingComma(b);
      StripCommasNoComma(b);
    } else {
      assert (a + [','] + b)[1..] == a[1..] + [','] + b;
      StripCommasSeparator(a[1..], b);
      assert a + b == [a[0]] + (a[1..] + b);
    }
  }

  /** "12,345" is stored as "12345". */
  lemma StripCommasExample()
    ensures StripCommas("12,345") == "12345"
  {
    var thousands, units := "12", "345";
    assert "12,345" == thousands + [','] + units;
    StripCommasSeparator(thousands, units);
  }

  /** `needle` occurs in `hay` at offset `k`. */
  ghost predicate OccursAt(hay: string, needle: string, k: int)
  {
    0 <= k && k + |needle| <= |hay| && hay[k..k + |needle|] == needle
  }

  /** Python's `needle in hay` on strings. */
  function Contains(hay: string, needle: string): (found: bool)
    decreases |hay|
  {
    if |needle| > |hay| then false
    else if hay[..|needle|] == needle then true
    else Contains(hay[1..], needle)
  }

  /** The substring test holds exactly when the needle occurs at some offset. */
  lemma {:induction false} ContainsIff(hay: string, needle: string)
    ensures Contains(hay, needle) <==> exists k :: OccursAt(hay, needle, k)
    decreases |hay|
  {
    if |needle| > |hay| {
    } else if hay[..|needle|] == needle {
      assert OccursAt(hay, needle, 0);
    } else {
      ContainsIff(hay[1..], needle);
      if exists k :: OccursAt(hay[1..], needle, k) {
        var k :| OccursAt(hay[1..], needle, k);
        assert hay[k + 1..k + 1 + |needle|] == hay[1..][k..k + |needle|];
        assert OccursAt(hay, needle, k + 1);
      }
      if exists k :: OccursAt(hay, needle, k) {
        var k :| OccursAt(hay, needle, k);
        assert k != 0;
        assert hay[1..][k - 1..k - 1 + |needle|] == hay[k..k + |needle|];
        assert OccursAt(hay[1..], needle, k - 1);
      }
    }
  }
}
