// Page text from a PDF: choosing an extractor by name, merging the pages two
// extractors return, and cleaning the text of a table cell.
module PdfText {
  import opened Wrappers
  import opened Text

  const Extractors: seq<string> := ["pdfplumber", "pymupdf", "hybrid"]

  // ---- merging the two extractors' pages ----

  /** The page the hybrid extractor keeps when both extractors read it: the pdfplumber
      text when it is strictly longer, otherwise the PyMuPDF text. */
  function BetterPage(plumber: string, pymupdf: string): string {
    if |plumber| > |pymupdf| then plumber else pymupdf
  }

  /** What `extract_text_hybrid` returns: the better of the two texts for each page both
      lists have, then the remaining pages of the longer list. */
  function Merge(plumber: seq<string>, pymupdf: seq<string>): seq<string> {
    var n := if |plumber| >= |pymupdf| then |plumber| else |pymupdf|;
    seq(n, i requires 0 <= i < n =>
      if i < |plumber| && i < |pymupdf| then BetterPage(plumber[i], pymupdf[i])
      else if i < |plumber| then plumber[i]
      else pymupdf[i])
  }

  /** The merge is as long as the longer list; a page both lists have comes from the
      pdfplumber list exactly when that text is strictly longer, so it is never shorter
      than either reading; the other pages come, in order, from the longer list. */
  lemma MergeFacts(plumber: seq<string>, pymupdf: seq<string>)
    ensures var r := Merge(plumber, pymupdf);
            && |r| == (if |plumber| >= |pymupdf| then |plumber| else |pymupdf|)
            && (forall i :: 0 <= i < |plumber| && i < |pymupdf| ==>
                  (r[i] == plumber[i] <== |plumber[i]| > |pymupdf[i]|)
                  && (r[i] == pymupdf[i] <== |plumber[i]| <= |pymupdf[i]|)
                  && |r[i]| >= |plumber[i]| && |r[i]| >= |pymupdf[i]|)
            && (|plumber| > |pymupdf| ==> r[|pymupdf|..] == plumber[|pymupdf|..])
            && (|pymupdf| > |plumber| ==> r[|plumber|..] == pymupdf[|plumber|..])
            && (|plumber| == |pymupdf| ==> forall i :: 0 <= i < |r| ==> r[i] == plumber[i] || r[i] == pymupdf[i])
  {
  }

  /** `extract_text_hybrid` on the pages the two readers returned. */
  method ExtractTextHybrid(plumber: seq<string>, pymupdf: seq<string>) returns (merged: seq<string>)
    ensures merged == Merge(plumber, pymupdf)
  {
    merged := [];
    var shorter := if |plumber| <= |pymupdf| then |plumber| else |pymupdf|;
    for i := 0 to shorter
      invariant |merged| == i
      invariant forall k :: 0 <= k < i ==> merged[k] == BetterPage(plumber[k], pymupdf[k])
    {
      if |plumber[i]| > |pymupdf[i]| {
        merged := merged + [plumber[i]];
      } else {
        merged := merged + [pymupdf[i]];
      }
    }
    if |plumber| > |merged| {
      merged := merged + plumber[|merged|..];
    } else if |pymupdf| > |merged| {
      merged := merged + pymupdf[|merged|..];
    }
  }

  /** `extract_text_from_pdf`: the readers' page lists are inputs here, and any other
      method name is the `ValueError` the function raises. */
  method ExtractTextFromPdf(name: string, plumber: seq<string>, pymupdf: seq<string>) returns (r: Result<seq<string>>)
    ensures name == "pdfplumber" ==> r == Ok(plumber)
    ensures name == "pymupdf" ==> r == Ok(pymupdf)
    ensures name == "hybrid" ==> r == Ok(Merge(plumber, pymupdf))
    ensures r.Err? <==> name !in Extractors
    ensures r.Err? ==> r.error == "ValueError: Unsupported extraction method: " + name
  {
    if name == "pdfplumber" {
      r := Ok(plumber);
    } else if name == "pymupdf" {
      r := Ok(pymupdf);
    } else if name == "hybrid" {
      var merged := ExtractTextHybrid(plumber, pymupdf);
      r := Ok(merged);
    } else {
      r := Err("ValueError: Unsupported extraction method: " + name);
    }
  }

  // ---- cleaning table text ----

  /** The punctuation `clean_table_text` keeps besides word characters and whitespace. */
  const KeptPunctuation: string := ".,;:()%-"

  /** What `[^\w\s.,;:()%-]` does not match; `isWord` is `\w`. */
  predicate Kept(c: char, isWord: char -> bool) {
    isWord(c) || IsSpace(c) || c in KeptPunctuation
  }

  /** A character of the cleaned text other than a blank. */
  predicate Wanted(c: char, isWord: char -> bool) {
    !IsSpace(c) && (isWord(c) || c in KeptPunctuation)
  }

  /** `re.sub(r'\s+', ' ', s)`: each run of whitespace becomes one blank. */
  function CollapseSpaces(s: string): (r: string)
    decreases |s|
    ensures |r| > 0 <==> |s| > 0
    ensures |r| > 0 ==> r[0] == (if IsSpace(s[0]) then ' ' else s[0])
  {
    if |s| == 0 then ""
    else if IsSpace(s[0]) then
      var t := TrimStart(s);
      " " + CollapseSpaces(t)
    else [s[0]] + CollapseSpaces(s[1..])
  }

  /** The only whitespace left is the blank, and no two whitespace characters are
      adjacent. */
  lemma {:induction false} CollapseSpacesFacts(s: string)
    ensures forall k :: 0 <= k < |CollapseSpaces(s)| && IsSpace(CollapseSpaces(s)[k]) ==> CollapseSpaces(s)[k] == ' '
    ensures forall k :: 0 <= k < |CollapseSpaces(s)| - 1 ==>
              !(IsSpace(CollapseSpaces(s)[k]) && IsSpace(CollapseSpaces(s)[k + 1]))
    decreases |s|
  {
    if |s| > 0 {
      var r := CollapseSpaces(s);
      var t := if IsSpace(s[0]) then TrimStart(s) else s[1..];
      var rest := CollapseSpaces(t);
      CollapseSpacesFacts(t);
      assert r == [r[0]] + rest;
      if IsSpace(s[0]) && |rest| > 0 {
        assert !IsSpace(rest[0]);
      }
    }
  }

  predicate NoSpace(s: string) {
    forall k :: 0 <= k < |s| ==> !IsSpace(s[k])
  }

  predicate AllSpace(s: string) {
    forall k :: 0 <= k < |s| ==> IsSpace(s[k])
  }

  /** Stripping the front of a whitespace run followed by non-blank text leaves that text. */
  lemma {:induction false} TrimStartSpaces(w: string, b: string)
    requires AllSpace(w) && (|b| == 0 || !IsSpace(b[0]))
    ensures TrimStart(w + b) == b
    decreases |w|
  {
    if |w| > 0 {
      assert (w + b)[1..] == w[1..] + b;
      TrimStartSpaces(w[1..], b);
    } else {
      assert w + b == b;
    }
  }

  /** Stripping the front of a text that ends in a non-blank leaves what follows it alone. */
  lemma {:induction false} TrimStartKeepsTail(x: string, y: string)
    requires |x| > 0 && !IsSpace(x[|x| - 1])
    ensures TrimStart(x + y) == TrimStart(x) + y
    decreases |x|
  {
    if IsSpace(x[0]) {
      assert (x + y)[1..] == x[1..] + y;
      TrimStartKeepsTail(x[1..], y);
    }
  }

  /** Text without whitespace passes through unchanged. */
  lemma {:induction false} CollapseNoSpace(s: string)
    requires NoSpace(s)
    ensures CollapseSpaces(s) == s
    decreases |s|
  {
    if |s| > 0 {
      CollapseNoSpace(s[1..]);
    }
  }

  lemma Assoc(x: string, y: string, z: string)
    ensures x + (y + z) == x + y + z
  {
  }

  /** A leading whitespace run becomes one blank. */
  lemma CollapseLeadingRun(w: string, b: string)
    requires |w| > 0 && AllSpace(w) && (|b| == 0 || !IsSpace(b[0]))
    ensures CollapseSpaces(w + b) == " " + CollapseSpaces(b)
  {
    assert (w + b)[0] == w[0];
    TrimStartSpaces(w, b);
  }

  /** Text that starts with whitespace but ends in a non-blank: its leading run is
      collapsed the same way whatever follows it. */
  lemma CollapseLeadingOf(a: string, rest: string)
    requires |a| > 0 && IsSpace(a[0]) && !IsSpace(a[|a| - 1])
    ensures |TrimStart(a)| > 0 && !IsSpace(TrimStart(a)[|TrimStart(a)| - 1]) && |TrimStart(a)| < |a|
    ensures CollapseSpaces(a + rest) == " " + CollapseSpaces(TrimStart(a) + rest)
    ensures CollapseSpaces(a) == " " + CollapseSpaces(TrimStart(a))
  {
    var t := TrimStart(a);
    assert |t| > 0;
    assert t[|t| - 1] == a[|a| - 1];
    assert (a + rest)[0] == a[0];
    TrimStartKeepsTail(a, rest);
  }

  /** A leading non-blank is copied whatever follows it. */
  lemma CollapseLeadingChar(a: string, rest: string)
    requires |a| > 0 && !IsSpace(a[0])
    ensures CollapseSpaces(a + rest) == [a[0]] + CollapseSpaces(a[1..] + rest)
    ensures CollapseSpaces(a) == [a[0]] + CollapseSpaces(a[1..])
  {
    assert (a + rest)[0] == a[0] && (a + rest)[1..] == a[1..] + rest;
  }

  /** The step of `CollapseRun`: when `a` collapses to `p` followed by the collapse of
      its remainder `r`, whatever comes after, the run result for `r` carries over to `a`. */
  lemma CollapseRegroup(a: string, r: string, p: string, w: string, b: string)
    requires CollapseSpaces(a + (w + b)) == p + CollapseSpaces(r + (w + b))
    requires CollapseSpaces(a) == p + CollapseSpaces(r)
    requires CollapseSpaces(r + w + b) == CollapseSpaces(r) + " " + CollapseSpaces(b)
    ensures CollapseSpaces(a + w + b) == CollapseSpaces(a) + " " + CollapseSpaces(b)
  {
    var cr, cb := CollapseSpaces(r), CollapseSpaces(b);
    Assoc(a, w, b);
    Assoc(r, w, b);
    Assoc(p, cr + " ", cb);
    Assoc(p, cr, " ");
    calc {
      CollapseSpaces(a + w + b);
      CollapseSpaces(a + (w + b));
      p + CollapseSpaces(r + (w + b));
      p + CollapseSpaces(r + w + b);
      p + (cr + " " + cb);
      p + (cr + " ") + cb;
      p + cr + " " + cb;
      CollapseSpaces(a) + " " + cb;
    }
  }

  /** A whole whitespace run between two pieces of text becomes exactly one blank between
      the pieces' own collapsed forms; with `NoSpace` texts unchanged this fixes the
      result on every input. */
  lemma {:induction false} CollapseRun(a: string, w: string, b: string)
    requires |w| > 0 && AllSpace(w)
    requires |a| == 0 || !IsSpace(a[|a| - 1])
    requires |b| == 0 || !IsSpace(b[0])
    ensures CollapseSpaces(a + w + b) == CollapseSpaces(a) + " " + CollapseSpaces(b)
    decreases |a|, 1
  {
    if |a| == 0 {
      CollapseRunEmptyLed(a, w, b);
    } else if IsSpace(a[0]) {
      CollapseRunSpaceLed(a, w, b);
    } else {
      CollapseRunCharLed(a, w, b);
    }
  }

  /** `CollapseRun` with nothing before the run: it becomes the leading blank. */
  lemma CollapseRunEmptyLed(a: string, w: string, b: string)
    requires |w| > 0 && AllSpace(w) && |a| == 0
    requires |b| == 0 || !IsSpace(b[0])
    ensures CollapseSpaces(a + w + b) == CollapseSpaces(a) + " " + CollapseSpaces(b)
  {
    assert a == "";
    assert a + w + b == w + b;
    assert CollapseSpaces(a) == "";
    var cb := CollapseSpaces(b);
    assert "" + " " + cb == " " + cb;
    CollapseLeadingRun(w, b);
  }

  /** `CollapseRun` when `a` itself starts with a whitespace run. */
  lemma {:induction false} CollapseRunSpaceLed(a: string, w: string, b: string)
    requires |w| > 0 && AllSpace(w)
    requires |a| > 0 && IsSpace(a[0]) && !IsSpace(a[|a| - 1])
    requires |b| == 0 || !IsSpace(b[0])
    ensures CollapseSpaces(a + w + b) == CollapseSpaces(a) + " " + CollapseSpaces(b)
    decreases |a|, 0
  {
    CollapseLeadingOf(a, w + b);
    var t := TrimStart(a);
    CollapseRun(t, w, b);
    CollapseRegroup(a, t, " ", w, b);
  }

  /** `CollapseRun` when `a` starts with a non-blank. */
  lemma {:induction false} CollapseRunCharLed(a: string, w: string, b: string)
    requires |w| > 0 && AllSpace(w)
    requires |a| > 0 && !IsSpace(a[0]) && !IsSpace(a[|a| - 1])
    requires |b| == 0 || !IsSpace(b[0])
    ensures CollapseSpaces(a + w + b) == CollapseSpaces(a) + " " + CollapseSpaces(b)
    decreases |a|, 0
  {
    CollapseLeadingChar(a, w + b);
    CollapseRun(a[1..], w, b);
    CollapseRegroup(a, a[1..], [a[0]], w, b);
  }


  /** `re.sub(r'[^\w\s.,;:()%-]', '', s)`. */
  function RemoveSpecial(s: string, isWord: char -> bool): (r: string)
    ensures |r| <= |s|
    ensures forall k :: 0 <= k < |r| ==> Kept(r[k], isWord)
  {
    if |s| == 0 then ""
    else
      var rest := RemoveSpecial(s[1..], isWord);
      if Kept(s[0], isWord) then [s[0]] + rest else rest
  }

  /** Every character left is one of the input's. */
  lemma {:induction false} RemoveSpecialFromInput(s: string, isWord: char -> bool)
    ensures forall k :: 0 <= k < |RemoveSpecial(s, isWord)| ==> RemoveSpecial(s, isWord)[k] in s
  {
    if |s| > 0 {
      RemoveSpecialFromInput(s[1..], isWord);
      assert forall c :: c in s[1..] ==> c in s;
    }
  }

  /** The substitution works character by character: it distributes over concatenation, */
  lemma {:induction false} RemoveSpecialAppend(a: string, b: string, isWord: char -> bool)
    ensures RemoveSpecial(a + b, isWord) == RemoveSpecial(a, isWord) + RemoveSpecial(b, isWord)
    decreases |a|
  {
    if |a| == 0 {
      assert a + b == b;
    } else {
      assert (a + b)[0] == a[0] && (a + b)[1..] == a[1..] + b;
      RemoveSpecialAppend(a[1..], b, isWord);
    }
  }

  /** and a single character is kept exactly when it is a word character, whitespace or
      listed punctuation. */
  lemma RemoveSpecialOne(c: char, isWord: char -> bool)
    ensures RemoveSpecial([c], isWord) == (if Kept(c, isWord) then [c] else [])
  {
    assert [c][1..] == "";
  }

  /** `clean_table_text`; `None` and `""` are the falsy inputs. */
  function CleanTableText(text: Option<string>, isWord: char -> bool): (r: string)
    ensures text.None? || text.value == "" ==> r == ""
  {
    if text.None? || |text.value| == 0 then ""
    else Strip(RemoveSpecial(CollapseSpaces(text.value), isWord))
  }

  /** The characters of `s` that are not whitespace, in order. */
  function NonSpace(s: string): string {
    if |s| == 0 then "" else (if IsSpace(s[0]) then "" else [s[0]]) + NonSpace(s[1..])
  }

  /** The characters of `s` that cleaning must keep, in order. */
  function WantedChars(s: string, isWord: char -> bool): string {
    if |s| == 0 then "" else (if Wanted(s[0], isWord) then [s[0]] else "") + WantedChars(s[1..], isWord)
  }

  lemma {:induction false} NonSpaceConcat(a: string, b: string)
    ensures NonSpace(a + b) == NonSpace(a) + NonSpace(b)
  {
    if |a| > 0 {
      assert (a + b)[1..] == a[1..] + b;
      NonSpaceConcat(a[1..], b);
    } else {
      assert a + b == b;
    }
  }

  lemma {:induction false} NonSpaceOfSpaces(a: string)
    requires forall k :: 0 <= k < |a| ==> IsSpace(a[k])
    ensures NonSpace(a) == ""
  {
    if |a| > 0 {
      NonSpaceOfSpaces(a[1..]);
    }
  }

  lemma {:induction false} NonSpaceTrimStart(s: string)
    ensures NonSpace(TrimStart(s)) == NonSpace(s)
  {
    if |s| > 0 && IsSpace(s[0]) {
      NonSpaceTrimStart(s[1..]);
    }
  }

  lemma NonSpaceTrimEnd(s: string)
    ensures NonSpace(TrimEnd(s)) == NonSpace(s)
  {
    var r := TrimEnd(s);
    assert s == r + s[|r|..];
    NonSpaceConcat(r, s[|r|..]);
    NonSpaceOfSpaces(s[|r|..]);
  }

  /** Stripping drops only whitespace. */
  lemma NonSpaceStrip(s: string)
    ensures NonSpace(Strip(s)) == NonSpace(s)
  {
    NonSpaceTrimStart(s);
    NonSpaceTrimEnd(TrimStart(s));
  }

  /** Removing the special characters leaves exactly the wanted ones among the
      non-blank characters. */
  lemma {:induction false} NonSpaceRemoveSpecial(s: string, isWord: char -> bool)
    ensures NonSpace(RemoveSpecial(s, isWord)) == WantedChars(s, isWord)
  {
    if |s| > 0 {
      NonSpaceRemoveSpecial(s[1..], isWord);
      var rest := RemoveSpecial(s[1..], isWord);
      if Kept(s[0], isWord) {
        assert ([s[0]] + rest)[1..] == rest;
      }
    }
  }

  /** Whitespace at the front holds no wanted character. */
  lemma {:induction false} WantedCharsTrimStart(s: string, isWord: char -> bool)
    ensures WantedChars(TrimStart(s), isWord) == WantedChars(s, isWord)
  {
    if |s| > 0 && IsSpace(s[0]) {
      WantedCharsTrimStart(s[1..], isWord);
    }
  }

  /** Collapsing whitespace changes no wanted character. */
  lemma {:induction false} WantedCharsCollapse(s: string, isWord: char -> bool)
    decreases |s|
    ensures WantedChars(CollapseSpaces(s), isWord) == WantedChars(s, isWord)
  {
    if |s| > 0 {
      var r := CollapseSpaces(s);
      if IsSpace(s[0]) {
        var t := TrimStart(s);
        assert r == " " + CollapseSpaces(t);
        assert r[1..] == CollapseSpaces(t);
        WantedCharsCollapse(t, isWord);
        WantedCharsTrimStart(s, isWord);
      } else {
        assert r == [s[0]] + CollapseSpaces(s[1..]);
        assert r[1..] == CollapseSpaces(s[1..]);
        WantedCharsCollapse(s[1..], isWord);
      }
    }
  }

  /** A character the cleaned text may hold. */
  predicate Clean(c: char, isWord: char -> bool) {
    c == ' ' || Wanted(c, isWord)
  }

  /** After both substitutions only blanks and wanted characters are left. */
  lemma SubstitutedChars(s: string, isWord: char -> bool)
    ensures forall k :: 0 <= k < |RemoveSpecial(CollapseSpaces(s), isWord)| ==>
              Clean(RemoveSpecial(CollapseSpaces(s), isWord)[k], isWord)
  {
    var c := CollapseSpaces(s);
    var d := RemoveSpecial(c, isWord);
    RemoveSpecialFromInput(c, isWord);
    CollapseSpacesFacts(s);
    forall k | 0 <= k < |d|
      ensures Clean(d[k], isWord)
    {
      assert d[k] in c;
      var m :| 0 <= m < |c| && c[m] == d[k];
    }
  }

  /** Stripping keeps a subset of the characters. */
  lemma StripChars(d: string, isWord: char -> bool)
    requires forall k :: 0 <= k < |d| ==> Clean(d[k], isWord)
    ensures forall k :: 0 <= k < |Strip(d)| ==> Clean(Strip(d)[k], isWord)
  {
    var t := TrimStart(d);
    var r := TrimEnd(t);
    forall k | 0 <= k < |r|
      ensures Clean(r[k], isWord)
    {
      assert r[k] == t[k] == d[|d| - |t| + k];
    }
  }

  /** The cleaned text holds only blanks and wanted characters, neither starts nor ends
      with whitespace, and its non-blank characters are exactly the input's word and
      listed punctuation characters, in their order. */
  lemma CleanTableTextFacts(text: Option<string>, isWord: char -> bool)
    ensures forall k :: 0 <= k < |CleanTableText(text, isWord)| ==> Clean(CleanTableText(text, isWord)[k], isWord)
    ensures |CleanTableText(text, isWord)| > 0 ==>
              && !IsSpace(CleanTableText(text, isWord)[0])
              && !IsSpace(CleanTableText(text, isWord)[|CleanTableText(text, isWord)| - 1])
    ensures text.Some? ==> NonSpace(CleanTableText(text, isWord)) == WantedChars(text.value, isWord)
  {
    CleanedChars(text, isWord);
    CleanedEnds(text, isWord);
    CleanedNonSpace(text, isWord);
  }

  lemma CleanedChars(text: Option<string>, isWord: char -> bool)
    ensures forall k :: 0 <= k < |CleanTableText(text, isWord)| ==> Clean(CleanTableText(text, isWord)[k], isWord)
  {
    if text.Some? && |text.value| > 0 {
      var d := RemoveSpecial(CollapseSpaces(text.value), isWord);
      assert CleanTableText(text, isWord) == Strip(d);
      SubstitutedChars(text.value, isWord);
      StripChars(d, isWord);
    }
  }

  lemma CleanedEnds(text: Option<string>, isWord: char -> bool)
    ensures |CleanTableText(text, isWord)| > 0 ==>
              && !IsSpace(CleanTableText(text, isWord)[0])
              && !IsSpace(CleanTableText(text, isWord)[|CleanTableText(text, isWord)| - 1])
  {
    if text.Some? && |text.value| > 0 {
      assert CleanTableText(text, isWord) == Strip(RemoveSpecial(CollapseSpaces(text.value), isWord));
      StripEnds(RemoveSpecial(CollapseSpaces(text.value), isWord));
    }
  }

  lemma CleanedNonSpace(text: Option<string>, isWord: char -> bool)
    ensures text.Some? ==> NonSpace(CleanTableText(text, isWord)) == WantedChars(text.value, isWord)
  {
    if text.Some? && |text.value| > 0 {
      var s := text.value;
      var c := CollapseSpaces(s);
      assert CleanTableText(text, isWord) == Strip(RemoveSpecial(c, isWord));
      NonSpaceStrip(RemoveSpecial(c, isWord));
      NonSpaceRemoveSpecial(c, isWord);
      WantedCharsCollapse(s, isWord);
    }
  }

  /** Collapsing keeps a final non-blank in last place. */
  lemma {:induction false} CollapseLastChar(a: string)
    requires |a| > 0 && !IsSpace(a[|a| - 1])
    ensures |CollapseSpaces(a)| > 0 && CollapseSpaces(a)[|CollapseSpaces(a)| - 1] == a[|a| - 1]
    decreases |a|
  {
    var c := CollapseSpaces(a);
    if IsSpace(a[0]) {
      var t := TrimStart(a);
      assert t == a[|a| - |t|..];
      assert |t| > 0 && |t| < |a| by {
        assert !IsSpace(a[|a| - 1]);
      }
      CollapseLastChar(t);
      assert c == " " + CollapseSpaces(t);
    } else if |a| > 1 {
      CollapseLastChar(a[1..]);
      assert c == [a[0]] + CollapseSpaces(a[1..]);
    } else {
      assert c == [a[0]];
    }
  }

  /** Stripping the end of a text that starts with a non-blank leaves what precedes it
      alone. */
  lemma {:induction false} TrimEndKeepsHead(x: string, y: string)
    requires |y| > 0 && !IsSpace(y[0])
    ensures TrimEnd(x + y) == x + TrimEnd(y)
    decreases |y|
  {
    var n := |x + y|;
    if IsSpace(y[|y| - 1]) {
      assert (x + y)[n - 1] == y[|y| - 1];
      assert (x + y)[..n - 1] == x + y[..|y| - 1];
      TrimEndKeepsHead(x, y[..|y| - 1]);
    } else {
      assert (x + y)[n - 1] == y[|y| - 1];
    }
  }

  /** Substituting around a single blank: the blank stays, and the wanted characters on
      either side stay at the ends of their pieces. */
  lemma RemoveAroundBlank(x: string, y: string, isWord: char -> bool)
    requires |x| > 0 && Wanted(x[|x| - 1], isWord) && |y| > 0 && Wanted(y[0], isWord)
    ensures var rx, ry := RemoveSpecial(x, isWord), RemoveSpecial(y, isWord);
            && RemoveSpecial(x + " " + y, isWord) == rx + " " + ry
            && |rx| > 0 && rx[|rx| - 1] == x[|x| - 1] && |ry| > 0 && ry[0] == y[0]
  {
    RemoveSpecialAppend(x + " ", y, isWord);
    RemoveSpecialAppend(x, " ", isWord);
    RemoveSpecialOne(' ', isWord);
    var init := x[..|x| - 1];
    assert x == init + [x[|x| - 1]];
    RemoveSpecialAppend(init, [x[|x| - 1]], isWord);
    RemoveSpecialOne(x[|x| - 1], isWord);
    assert y == [y[0]] + y[1..];
    RemoveSpecialAppend([y[0]], y[1..], isWord);
    RemoveSpecialOne(y[0], isWord);
  }

  /** Stripping around a single blank between two non-blanks keeps the blank. */
  lemma StripAroundBlank(x: string, y: string)
    requires |x| > 0 && !IsSpace(x[|x| - 1]) && |y| > 0 && !IsSpace(y[0])
    ensures Strip(x + " " + y) == Strip(x) + " " + Strip(y)
  {
    TrimStartKeepsTail(x, " " + y);
    Assoc(x, " ", y);
    var t := TrimStart(x);
    assert |t| > 0 && t[|t| - 1] == x[|x| - 1] by {
      assert t == x[|x| - |t|..];
    }
    TrimEndKeepsHead(t + " ", y);
    Assoc(t, " ", y);
    assert TrimEnd(t) == t;
    assert TrimStart(y) == y;
  }

  /** Substituting and stripping around a single blank between two wanted characters
      keeps the blank. */
  lemma CleanAroundBlank(x: string, y: string, isWord: char -> bool)
    requires |x| > 0 && Wanted(x[|x| - 1], isWord) && |y| > 0 && Wanted(y[0], isWord)
    ensures Strip(RemoveSpecial(x + " " + y, isWord))
            == Strip(RemoveSpecial(x, isWord)) + " " + Strip(RemoveSpecial(y, isWord))
  {
    RemoveAroundBlank(x, y, isWord);
    StripAroundBlank(RemoveSpecial(x, isWord), RemoveSpecial(y, isWord));
  }

  /** Two wanted characters that the input separates only by whitespace end up separated
      by exactly one blank: cleaning the whole is cleaning each side, joined by a blank. */
  lemma CleanAcrossRun(a: string, w: string, b: string, isWord: char -> bool)
    requires |w| > 0 && AllSpace(w)
    requires |a| > 0 && Wanted(a[|a| - 1], isWord) && |b| > 0 && Wanted(b[0], isWord)
    ensures CleanTableText(Some(a + w + b), isWord)
            == CleanTableText(Some(a), isWord) + " " + CleanTableText(Some(b), isWord)
  {
    var ca, cb := CollapseSpaces(a), CollapseSpaces(b);
    calc {
      CleanTableText(Some(a + w + b), isWord);
      { CleanOfText(a + w + b, isWord); }
      Strip(RemoveSpecial(CollapseSpaces(a + w + b), isWord));
      { CollapseRun(a, w, b); }
      Strip(RemoveSpecial(ca + " " + cb, isWord));
      { CollapsedEnds(a, b, isWord); CleanAroundBlank(ca, cb, isWord); }
      Strip(RemoveSpecial(ca, isWord)) + " " + Strip(RemoveSpecial(cb, isWord));
      { CleanOfText(a, isWord); CleanOfText(b, isWord); }
      CleanTableText(Some(a), isWord) + " " + CleanTableText(Some(b), isWord);
    }
  }

  lemma CleanOfText(s: string, isWord: char -> bool)
    requires |s| > 0
    ensures CleanTableText(Some(s), isWord) == Strip(RemoveSpecial(CollapseSpaces(s), isWord))
  {
  }

  /** Collapsing keeps a wanted last and a wanted first character where they are. */
  lemma CollapsedEnds(a: string, b: string, isWord: char -> bool)
    requires |a| > 0 && Wanted(a[|a| - 1], isWord) && |b| > 0 && Wanted(b[0], isWord)
    ensures var ca, cb := CollapseSpaces(a), CollapseSpaces(b);
            |ca| > 0 && Wanted(ca[|ca| - 1], isWord) && |cb| > 0 && Wanted(cb[0], isWord)
  {
    CollapseLastChar(a);
  }
}
