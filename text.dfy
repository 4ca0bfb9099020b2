/** The pieces of Ruby's String API and of ActiveSupport's string extensions that the
    formatter and the device are built from: strip, blank? and presence, squish, join,
    upcase, Integer#to_s and bytesize.  Characters are Unicode scalar values, so
    lengths are character counts, as Ruby's String#size is on UTF-8 text. */
module Text {
  import opened Wrappers

  /** The characters String#strip removes and blank? looks through. */
  predicate IsSpace(c: char) {
    c == ' ' || c == '\t' || c == '\n' || c == '\U{0B}' || c == '\U{0C}' || c == '\r'
  }

  /** ActiveSupport's blank? on a string: nothing but whitespace. */
  predicate Blank(s: string) {
    forall i :: 0 <= i < |s| ==> IsSpace(s[i])
  }

  /** Not empty, and no whitespace at either end: what strip leaves of a non-blank string. */
  predicate Trimmed(s: string) {
    s != [] && !IsSpace(s[0]) && !IsSpace(s[|s| - 1])
  }

  /** Ruby's to_s on a string or nil. */
  function ToS(v: Option<string>): string {
    match v
    case None => ""
    case Some(s) => s
  }

  /** ActiveSupport's presence: nil for a blank string, the string itself otherwise. */
  function Presence(s: string): (r: Option<string>)
    ensures r.None? <==> Blank(s)
    ensures r.Some? ==> r.value == s
  {
    if Blank(s) then None else Some(s)
  }

  /** String#lstrip: the suffix left after dropping leading whitespace. */
  function LStrip(s: string): (r: string)
    ensures |r| <= |s| && r == s[|s| - |r|..]
    ensures r == [] || !IsSpace(r[0])
    ensures forall i :: 0 <= i < |s| - |r| ==> IsSpace(s[i])
  {
    s[LeadingSpaces(s)..]
  }

  /** How many whitespace characters s starts with. */
  function LeadingSpaces(s: string): (k: nat)
    ensures k <= |s|
    ensures forall i :: 0 <= i < k ==> IsSpace(s[i])
    ensures k == |s| || !IsSpace(s[k])
  {
    if s == [] || !IsSpace(s[0]) then 0 else 1 + LeadingSpaces(s[1..])
  }

  /** String#rstrip: the prefix left after dropping trailing whitespace. */
  function RStrip(s: string): (r: string)
    ensures |r| <= |s| && r == s[..|r|]
    ensures r == [] || !IsSpace(r[|r| - 1])
    ensures forall i :: |r| <= i < |s| ==> IsSpace(s[i])
  {
    s[..TrailingStart(s)]
  }

  /** Where the whitespace s ends with begins. */
  function TrailingStart(s: string): (k: nat)
    ensures k <= |s|
    ensures forall i :: k <= i < |s| ==> IsSpace(s[i])
    ensures k == 0 || !IsSpace(s[k - 1])
  {
    if s == [] || !IsSpace(s[|s| - 1]) then |s| else TrailingStart(s[..|s| - 1])
  }

  /** Dropping a leading run of whitespace does not change whether a string is blank. */
  lemma BlankAfterSpaces(s: string, k: nat)
    requires k <= |s|
    requires forall i :: 0 <= i < k ==> IsSpace(s[i])
    ensures Blank(s) <==> Blank(s[k..])
  {
    if Blank(s[k..]) {
      forall i | 0 <= i < |s| ensures IsSpace(s[i]) {
        if i >= k { assert s[i] == s[k..][i - k]; }
      }
    }
  }

  /** One more character in front is blank exactly when it is whitespace and the rest is. */
  lemma BlankCons(c: char, t: string)
    ensures Blank([c] + t) <==> IsSpace(c) && Blank(t)
  {
    var r := [c] + t;
    assert r[1..] == t;
    if IsSpace(c) {
      BlankAfterSpaces(r, 1);
    } else {
      assert r[0] == c;
    }
  }

  /** String#strip: the slice of s between its leading and its trailing whitespace. */
  function Strip(s: string): (r: string)
    ensures r == [] || Trimmed(r)
    ensures r == [] <==> Blank(s)
    ensures Trimmed(s) ==> r == s
  {
    StripFacts(s, LStrip(s), RStrip(LStrip(s)));
    RStrip(LStrip(s))
  }

  lemma StripFacts(s: string, l: string, r: string)
    requires l == LStrip(s) && r == RStrip(l)
    ensures r == [] || Trimmed(r)
    ensures r == [] <==> Blank(s)
    ensures Trimmed(s) ==> r == s
  {
    StripEnds(s, l, r);
    StripBlank(s, l, r);
    if Trimmed(s) {
      StripTrimmed(s);
    }
  }

  /** Neither half of strip touches a trimmed string. */
  lemma StripTrimmed(s: string)
    requires Trimmed(s)
    ensures LStrip(s) == s && RStrip(s) == s
  {
  }

  lemma StripEnds(s: string, l: string, r: string)
    requires l == LStrip(s) && r == RStrip(l)
    ensures r == [] || Trimmed(r)
  {
    if r != [] {
      assert r[0] == l[0];
    }
  }

  lemma StripBlank(s: string, l: string, r: string)
    requires l == LStrip(s) && r == RStrip(l)
    ensures r == [] <==> Blank(s)
  {
    var k := |s| - |l|;
    BlankAfterSpaces(s, k);
    assert l == s[k..];
    if r != [] {
      assert r[0] == l[0];
      assert !Blank(l);
    }
  }

  /** A string that starts with a trimmed piece keeps that piece whole through strip. */
  lemma StripKeepsPrefix(a: string, b: string)
    requires Trimmed(a)
    ensures |a| <= |Strip(a + b)| && Strip(a + b)[..|a|] == a
  {
    var s := a + b;
    assert LStrip(s) == s;
    var r := RStrip(s);
    assert s[|a| - 1] == a[|a| - 1];
    assert |r| >= |a|;
    assert r[..|a|] == s[..|a|];
  }

  /** rstrip of a head, one space and a word: the space goes with the word when the word
      is empty, and everything stays otherwise. */
  lemma RStripSpaceWord(head: string, word: string)
    requires head == [] || !IsSpace(head[|head| - 1])
    requires word == [] || Trimmed(word)
    ensures word == [] ==> RStrip(head + " " + word) == head
    ensures word != [] ==> RStrip(head + " " + word) == head + " " + word
  {
    var s := head + " " + word;
    if word == [] {
      RStripTrailingSpace(head);
      assert s == head + " ";
    } else {
      assert s[|s| - 1] == word[|word| - 1];
      RStripKeeps(s);
    }
  }

  /** rstrip leaves alone a string that does not end in whitespace. */
  lemma RStripKeeps(s: string)
    requires s != [] && !IsSpace(s[|s| - 1])
    ensures RStrip(s) == s
  {
  }

  /** rstrip takes one trailing space off a string that otherwise does not end in whitespace. */
  lemma RStripTrailingSpace(head: string)
    requires head == [] || !IsSpace(head[|head| - 1])
    ensures RStrip(head + " ") == head
  {
    var s := head + " ";
    assert s[..|s| - 1] == head;
  }

  /** Every whitespace character is a plain space, and no two of them are adjacent. */
  predicate SingleSpaced(s: string) {
    && (forall i :: 0 <= i < |s| && IsSpace(s[i]) ==> s[i] == ' ')
    && (forall i, j :: 0 <= i < |s| && 0 <= j < |s| && j == i + 1 && IsSpace(s[i]) ==> !IsSpace(s[j]))
  }

  /** Putting one character in front of a single-spaced string keeps it single-spaced
      unless that adds a second space or a different whitespace character. */
  lemma SingleSpacedCons(c: char, t: string)
    requires SingleSpaced(t)
    requires IsSpace(c) ==> c == ' ' && (t == [] || !IsSpace(t[0]))
    ensures SingleSpaced([c] + t)
  {
    var s := [c] + t;
    forall i | 1 <= i < |s| ensures s[i] == t[i - 1] { }
  }

  /** lstrip keeps a single-spaced string single-spaced. */
  lemma SingleSpacedLStrip(c: string)
    requires SingleSpaced(c)
    ensures SingleSpaced(LStrip(c))
  {
    SingleSpacedSuffix(c, LeadingSpaces(c));
  }

  /** rstrip keeps a single-spaced string single-spaced. */
  lemma SingleSpacedRStrip(c: string)
    requires SingleSpaced(c)
    ensures SingleSpaced(RStrip(c))
  {
    SingleSpacedPrefix(c, TrailingStart(c));
  }

  /** Every suffix of a single-spaced string is single-spaced. */
  lemma SingleSpacedSuffix(c: string, k: nat)
    requires SingleSpaced(c) && k <= |c|
    ensures SingleSpaced(c[k..])
  {
    var r := c[k..];
    forall i | 0 <= i < |r| && IsSpace(r[i]) ensures r[i] == ' ' {
      assert r[i] == c[k + i];
    }
    forall i, j | 0 <= i < |r| && 0 <= j < |r| && j == i + 1 && IsSpace(r[i]) ensures !IsSpace(r[j]) {
      assert r[i] == c[k + i] && r[j] == c[k + j];
    }
  }

  /** Every prefix of a single-spaced string is single-spaced. */
  lemma SingleSpacedPrefix(c: string, k: nat)
    requires SingleSpaced(c) && k <= |c|
    ensures SingleSpaced(c[..k])
  {
    var r := c[..k];
    forall i | 0 <= i < |r| && IsSpace(r[i]) ensures r[i] == ' ' {
      assert r[i] == c[i];
    }
    forall i, j | 0 <= i < |r| && 0 <= j < |r| && j == i + 1 && IsSpace(r[i]) ensures !IsSpace(r[j]) {
      assert r[i] == c[i] && r[j] == c[j];
    }
  }

  /** The whitespace-run half of ActiveSupport's squish: every run of whitespace becomes
      one space. afterSpace says that the character before s was whitespace, so that a
      run going on into s adds nothing more. Its properties are stated by
      CollapseSpacesFacts and the lemmas after it. */
  function CollapseSpaces(s: string, afterSpace: bool): (r: string)
    ensures |r| <= |s|
  {
    if s == [] then []
    else if !IsSpace(s[0]) then [s[0]] + CollapseSpaces(s[1..], false)
    else if afterSpace then CollapseSpaces(s[1..], true)
    else [' '] + CollapseSpaces(s[1..], true)
  }

  /** Collapsing from outside a run keeps the first character, or turns it into a space
      when it is whitespace; inside a run the result does not open with whitespace. The
      result is blank exactly when the input is, and single-spaced. */
  lemma {:induction false} CollapseSpacesFacts(s: string, afterSpace: bool)
    ensures var r := CollapseSpaces(s, afterSpace);
      && (!afterSpace ==> (r == [] <==> s == []))
      && (!afterSpace && s != [] ==> r != [] && r[0] == (if IsSpace(s[0]) then ' ' else s[0]))
      && (afterSpace ==> r == [] || !IsSpace(r[0]))
      && (Blank(r) <==> Blank(s))
      && SingleSpaced(r)
    decreases |s|
  {
    if s != [] {
      var t := CollapseSpaces(s[1..], IsSpace(s[0]));
      assert s == [s[0]] + s[1..];
      BlankCons(s[0], s[1..]);
      if !IsSpace(s[0]) {
        CollapseSpacesFacts(s[1..], false);
        BlankCons(s[0], t);
        SingleSpacedCons(s[0], t);
      } else {
        CollapseSpacesFacts(s[1..], true);
        if !afterSpace {
          BlankCons(' ', t);
          SingleSpacedCons(' ', t);
        }
      }
    }
  }

  /** ActiveSupport's squish: whitespace runs collapsed to one space, then stripped. */
  function Squish(s: string): (r: string)
    ensures r == [] <==> Blank(s)
    ensures r == [] || Trimmed(r)
  {
    var c := CollapseSpaces(s, false);
    var r := Strip(c);
    SquishFacts(s, c, r);
    r
  }

  /** Every whitespace run squish leaves is a single space. */
  lemma SquishSingleSpaced(s: string)
    ensures SingleSpaced(Squish(s))
  {
    SquishFacts(s, CollapseSpaces(s, false), Squish(s));
  }

  lemma SquishFacts(s: string, c: string, r: string)
    requires c == CollapseSpaces(s, false) && r == Strip(c)
    ensures r == [] <==> Blank(s)
    ensures SingleSpaced(r)
  {
    CollapseSpacesFacts(s, false);
    SingleSpacedLStrip(c);
    SingleSpacedRStrip(LStrip(c));
  }

  /** The characters of s that are not whitespace, in order. */
  function NonSpace(s: string): string {
    if s == [] then []
    else (if IsSpace(s[0]) then [] else [s[0]]) + NonSpace(s[1..])
  }

  /** NonSpace of a concatenation is the concatenation of the two. */
  lemma {:induction false} NonSpaceAppend(a: string, b: string)
    ensures NonSpace(a + b) == NonSpace(a) + NonSpace(b)
  {
    if a == [] {
      assert a + b == b;
    } else {
      assert (a + b)[0] == a[0];
      assert (a + b)[1..] == a[1..] + b;
      NonSpaceAppend(a[1..], b);
    }
  }

  /** A blank string has no characters besides whitespace. */
  lemma {:induction false} NonSpaceBlank(s: string)
    requires Blank(s)
    ensures NonSpace(s) == []
  {
    if s != [] {
      var t := s[1..];
      forall i | 0 <= i < |t| ensures IsSpace(t[i]) {
        assert t[i] == s[i + 1];
      }
      NonSpaceBlank(t);
    }
  }

  /** strip only drops whitespace: every other character survives, in order. */
  lemma NonSpaceStrip(s: string)
    ensures NonSpace(Strip(s)) == NonSpace(s)
  {
    NonSpaceLStrip(s);
    NonSpaceRStrip(LStrip(s));
  }

  /** lstrip only drops whitespace. */
  lemma NonSpaceLStrip(s: string)
    ensures NonSpace(LStrip(s)) == NonSpace(s)
  {
    var k := LeadingSpaces(s);
    assert s == s[..k] + s[k..];
    BlankPrefix(s, k);
    NonSpaceAppend(s[..k], s[k..]);
    NonSpaceBlank(s[..k]);
  }

  /** rstrip only drops whitespace. */
  lemma NonSpaceRStrip(s: string)
    ensures NonSpace(RStrip(s)) == NonSpace(s)
  {
    var j := TrailingStart(s);
    assert s == s[..j] + s[j..];
    BlankSuffix(s, j);
    NonSpaceAppend(s[..j], s[j..]);
    NonSpaceBlank(s[j..]);
  }

  /** A prefix whose characters are all whitespace is blank. */
  lemma BlankPrefix(s: string, k: nat)
    requires k <= |s| && forall i :: 0 <= i < k ==> IsSpace(s[i])
    ensures Blank(s[..k])
  {
    forall i | 0 <= i < k ensures IsSpace(s[..k][i]) {
      assert s[..k][i] == s[i];
    }
  }

  /** A suffix whose characters are all whitespace is blank. */
  lemma BlankSuffix(s: string, k: nat)
    requires k <= |s| && forall i :: k <= i < |s| ==> IsSpace(s[i])
    ensures Blank(s[k..])
  {
    forall i | 0 <= i < |s| - k ensures IsSpace(s[k..][i]) {
      assert s[k..][i] == s[k + i];
    }
  }

  /** Collapsing runs of whitespace only drops or replaces whitespace. */
  lemma {:induction false} CollapseSpacesNonSpace(s: string, afterSpace: bool)
    ensures NonSpace(CollapseSpaces(s, afterSpace)) == NonSpace(s)
    decreases |s|
  {
    if s != [] {
      var r := CollapseSpaces(s, afterSpace);
      var t := CollapseSpaces(s[1..], IsSpace(s[0]));
      CollapseSpacesNonSpace(s[1..], IsSpace(s[0]));
      if !IsSpace(s[0]) || !afterSpace {
        assert r[1..] == t;
      }
    }
  }

  /** squish keeps every character that is not whitespace, in order. */
  lemma SquishNonSpace(s: string)
    ensures NonSpace(Squish(s)) == NonSpace(s)
  {
    CollapseSpacesNonSpace(s, false);
    NonSpaceStrip(CollapseSpaces(s, false));
  }

  /** Collapsing leaves a single-spaced string as it is, unless it opens with a space
      that continues a run. */
  lemma {:induction false} CollapseSingleSpaced(t: string, afterSpace: bool)
    requires SingleSpaced(t)
    requires afterSpace ==> t == [] || !IsSpace(t[0])
    ensures CollapseSpaces(t, afterSpace) == t
    decreases |t|
  {
    if t != [] {
      SingleSpacedSuffix(t, 1);
      if IsSpace(t[0]) {
        assert t[0] == ' ';
        assert |t| == 1 || !IsSpace(t[1]);
      }
      CollapseSingleSpaced(t[1..], IsSpace(t[0]));
      assert t == [t[0]] + t[1..];
    }
  }

  /** Squishing text that is already squished changes nothing; so squish is idempotent. */
  lemma SquishSquished(t: string)
    requires t == [] || Trimmed(t)
    requires SingleSpaced(t)
    ensures Squish(t) == t
  {
    CollapseSingleSpaced(t, false);
  }

  /** squish applied twice is squish applied once. */
  lemma SquishIdempotent(s: string)
    ensures Squish(Squish(s)) == Squish(s)
  {
    SquishSingleSpaced(s);
    SquishSquished(Squish(s));
  }

  /** Whether a run of whitespace is open at the end of s, which followed afterSpace. */
  function EndsInSpace(s: string, afterSpace: bool): bool {
    if s == [] then afterSpace else IsSpace(s[|s| - 1])
  }

  /** The head and the tail of a concatenation whose first part is not empty. */
  lemma ConsAppend(x: string, y: string)
    requires x != []
    ensures (x + y)[0] == x[0] && (x + y)[1..] == x[1..] + y
    ensures |x| > 1 ==> x[1..] != [] && x[1..][|x| - 2] == x[|x| - 1]
  {
  }

  /** Collapsing a concatenation collapses the first part, then the second with the run
      the first part leaves open. */
  lemma {:induction false} CollapseSpacesAppend(x: string, y: string, afterSpace: bool)
    ensures CollapseSpaces(x + y, afterSpace)
      == CollapseSpaces(x, afterSpace) + CollapseSpaces(y, EndsInSpace(x, afterSpace))
    decreases |x|
  {
    if x == [] {
      assert x + y == y;
    } else {
      var h := CollapseHead(x[0], afterSpace);
      var inRun := IsSpace(x[0]);
      ConsAppend(x, y);
      CollapseSpacesCons(x, afterSpace);
      CollapseSpacesCons(x + y, afterSpace);
      CollapseSpacesAppend(x[1..], y, inRun);
      assert EndsInSpace(x[1..], inRun) == EndsInSpace(x, afterSpace);
      calc {
        CollapseSpaces(x + y, afterSpace);
        h + CollapseSpaces(x[1..] + y, inRun);
        h + (CollapseSpaces(x[1..], inRun) + CollapseSpaces(y, EndsInSpace(x, afterSpace)));
        (h + CollapseSpaces(x[1..], inRun)) + CollapseSpaces(y, EndsInSpace(x, afterSpace));
      }
    }
  }

  /** What collapsing makes of one character: itself, or one space opening a run, or
      nothing inside a run. */
  function CollapseHead(c: char, afterSpace: bool): string {
    if !IsSpace(c) then [c] else if afterSpace then [] else [' ']
  }

  /** One step of collapsing. */
  lemma CollapseSpacesCons(s: string, afterSpace: bool)
    requires s != []
    ensures CollapseSpaces(s, afterSpace) == CollapseHead(s[0], afterSpace) + CollapseSpaces(s[1..], IsSpace(s[0]))
  {
  }

  /** Collapsing keeps the last character of a string that does not end in whitespace. */
  lemma CollapseSpacesLast(x: string, afterSpace: bool)
    requires x != [] && !IsSpace(x[|x| - 1])
    ensures var r := CollapseSpaces(x, afterSpace); r != [] && r[|r| - 1] == x[|x| - 1]
  {
    var n := |x| - 1;
    assert x == x[..n] + [x[n]];
    CollapseSpacesAppend(x[..n], [x[n]], afterSpace);
  }

  /** A run of whitespace collapses to one space, or to nothing when it goes on a run. */
  lemma CollapseSpacesRun(ws: string, afterSpace: bool)
    requires ws != [] && Blank(ws)
    ensures CollapseSpaces(ws, afterSpace) == if afterSpace then [] else " "
  {
    BlankAfterSpaces(ws, 1);
    CollapseSpacesFacts(ws[1..], true);
  }

  /** A run of whitespace between a piece that ends outside it and one that starts outside
      it collapses to one space. */
  lemma CollapseSpacesSeparated(a: string, ws: string, b: string)
    requires a != [] && !IsSpace(a[|a| - 1])
    requires b != [] && !IsSpace(b[0])
    requires ws != [] && Blank(ws)
    ensures CollapseSpaces(a + ws + b, false) == CollapseSpaces(a, false) + " " + CollapseSpaces(b, false)
  {
    assert a + ws + b == a + (ws + b);
    CollapseSpacesAppend(a, ws + b, false);
    CollapseSpacesAppend(ws, b, false);
    CollapseSpacesRun(ws, false);
    assert EndsInSpace(ws, false);
    CollapseSpacesCons(b, true);
    CollapseSpacesCons(b, false);
  }

  /** squish joins two trimmed pieces separated by any run of whitespace with exactly one
      space, squishing each piece on its own. */
  lemma SquishSeparated(a: string, ws: string, b: string)
    requires Trimmed(a) && Trimmed(b)
    requires ws != [] && Blank(ws)
    ensures Squish(a + ws + b) == Squish(a) + " " + Squish(b)
  {
    CollapseSpacesSeparated(a, ws, b);
    var ca := CollapseSpaces(a, false);
    var cb := CollapseSpaces(b, false);
    CollapseSpacesFacts(a, false);
    CollapseSpacesFacts(b, false);
    CollapseSpacesLast(a, false);
    CollapseSpacesLast(b, false);
    assert Trimmed(ca) && Trimmed(cb);
    var c := ca + " " + cb;
    assert c[0] == ca[0] && c[|c| - 1] == cb[|cb| - 1];
    assert Trimmed(c);
  }

  /** Array#join with a separator. */
  function Join(parts: seq<string>, sep: string): string {
    if parts == [] then ""
    else if |parts| == 1 then parts[0]
    else parts[0] + sep + Join(parts[1..], sep)
  }

  /** Joining one more part adds the separator and the part at the end. */
  lemma {:induction false} JoinSnoc(parts: seq<string>, last: string, sep: string)
    ensures Join(parts + [last], sep) == if parts == [] then last else Join(parts, sep) + sep + last
  {
    if |parts| >= 2 {
      assert (parts + [last])[1..] == parts[1..] + [last];
      JoinSnoc(parts[1..], last, sep);
    } else if |parts| == 1 {
      assert (parts + [last])[1..] == [last];
    }
  }

  /** The joined text opens with the first part. */
  lemma JoinStartsWithFirst(parts: seq<string>, sep: string)
    requires parts != []
    ensures |parts[0]| <= |Join(parts, sep)| && Join(parts, sep)[..|parts[0]|] == parts[0]
  {
  }

  /** Joined parts that each open with a non-space character are blank only when there are none. */
  lemma JoinBlankIffEmpty(parts: seq<string>, sep: string)
    requires forall i :: 0 <= i < |parts| ==> parts[i] != [] && !IsSpace(parts[i][0])
    ensures Blank(Join(parts, sep)) <==> parts == []
  {
    if parts != [] {
      JoinStartsWithFirst(parts, sep);
      assert Join(parts, sep)[0] == parts[0][0];
    }
  }

  /** String#upcase on one character, restricted to the ASCII letters. */
  function UpChar(c: char): char {
    if 'a' <= c <= 'z' then (c as int - 32) as char else c
  }

  /** String#downcase on one character, restricted to the ASCII letters. */
  function DownChar(c: char): char {
    if 'A' <= c <= 'Z' then (c as int + 32) as char else c
  }

  /** String#upcase. */
  function UpCase(s: string): (r: string)
    ensures |r| == |s|
    ensures forall i :: 0 <= i < |s| ==> r[i] == UpChar(s[i])
  {
    seq(|s|, i requires 0 <= i < |s| => UpChar(s[i]))
  }

  /** String#downcase. */
  function DownCase(s: string): (r: string)
    ensures |r| == |s|
    ensures forall i :: 0 <= i < |s| ==> r[i] == DownChar(s[i])
  {
    seq(|s|, i requires 0 <= i < |s| => DownChar(s[i]))
  }

  /** Lower-casing moves no whitespace, so it commutes with lstrip. */
  lemma LStripDownCase(s: string)
    ensures LStrip(DownCase(s)) == DownCase(LStrip(s))
  {
    var d := DownCase(s);
    var k := LeadingSpaces(s);
    var j := LeadingSpaces(d);
    assert j == k;
    assert d[k..] == DownCase(s[k..]);
  }

  /** Lower-casing moves no whitespace, so it commutes with rstrip. */
  lemma RStripDownCase(s: string)
    ensures RStrip(DownCase(s)) == DownCase(RStrip(s))
  {
    var d := DownCase(s);
    var k := TrailingStart(s);
    var j := TrailingStart(d);
    assert j == k;
    assert d[..k] == DownCase(s[..k]);
  }

  /** Lower-casing commutes with strip. */
  lemma StripDownCase(s: string)
    ensures Strip(DownCase(s)) == DownCase(Strip(s))
  {
    LStripDownCase(s);
    RStripDownCase(LStrip(s));
  }

  /** Upper-casing forgets a previous lower-casing. */
  lemma UpCaseDownCase(s: string)
    ensures UpCase(DownCase(s)) == UpCase(s)
  {
  }

  /** Integer#to_s for a non-negative integer: its decimal digits, most significant first. */
  function NatToDecimal(n: nat): (r: string)
    ensures r != []
    ensures forall i :: 0 <= i < |r| ==> '0' <= r[i] <= '9'
  {
    var digit := ('0' as int + n % 10) as char;
    if n < 10 then [digit] else NatToDecimal(n / 10) + [digit]
  }

  /** How many bytes UTF-8 spends on one character. */
  function Utf8Width(c: char): nat {
    if c as int < 0x80 then 1
    else if c as int < 0x800 then 2
    else if c as int < 0x10000 then 3
    else 4
  }

  /** String#bytesize of UTF-8 text. */
  function Utf8Length(s: string): (n: nat)
    ensures |s| <= n <= 4 * |s|
  {
    if s == [] then 0 else Utf8Width(s[0]) + Utf8Length(s[1..])
  }

  /** The byte size of a concatenation is the sum of the byte sizes. */
  lemma {:induction false} Utf8LengthAppend(a: string, b: string)
    ensures Utf8Length(a + b) == Utf8Length(a) + Utf8Length(b)
  {
    if a != [] {
      calc {
        Utf8Length(a + b);
        Utf8Width((a + b)[0]) + Utf8Length((a + b)[1..]);
        { assert (a + b)[0] == a[0]; assert (a + b)[1..] == a[1..] + b; }
        Utf8Width(a[0]) + Utf8Length(a[1..] + b);
        { Utf8LengthAppend(a[1..], b); }
        Utf8Width(a[0]) + Utf8Length(a[1..]) + Utf8Length(b);
      }
    } else {
      assert a + b == b;
    }
  }
}
