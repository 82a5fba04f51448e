/** The feature ranking chart (src/components/visualizations/FeatureImportanceChart.tsx):
    one bar per feature in list order, its width relative to the largest
    importance, its colour by category, a rank label and a display name made
    from the feature's identifier. */
module FeatureImportanceChart {
  import opened Types

  // ---------------------------------------------------------------- bar widths

  /** `Math.max(...importances)` for a non-empty list. */
  function MaxImportance(fs: seq<FeatureImportance>): (m: real)
    requires fs != []
    ensures forall i :: 0 <= i < |fs| ==> fs[i].importance <= m
    ensures exists i :: 0 <= i < |fs| && fs[i].importance == m
  {
    if |fs| == 1 then fs[0].importance
    else
      var rest := MaxImportance(fs[1..]);
      assert forall i :: 1 <= i < |fs| ==> fs[i] == fs[1..][i - 1];
      if fs[0].importance >= rest then fs[0].importance else rest
  }

  /** `(importance / max) * 100`; a zero maximum makes the width NaN or
      infinite, written `None`. */
  function BarWidth(importance: real, max: real): (w: Option<real>)
    ensures w.Some? <==> max != 0.0
    ensures w.Some? ==> w.value * max == importance * 100.0
    ensures 0.0 < importance <= max ==>
              w.Some? && 0.0 < w.value <= 100.0 && (w.value == 100.0 <==> importance == max)
  {
    if max == 0.0 then None
    else
      var width := importance / max * 100.0;
      assert width * max == importance * 100.0 by {
        assert importance / max * max == importance;
      }
      if 0.0 < importance <= max then
        WidthOfShare(importance, max);
        Some(width)
      else
        Some(width)
  }

  /** The width of every bar, in list order; an empty list draws no bar. */
  function BarWidths(fs: seq<FeatureImportance>): (ws: seq<Option<real>>)
    ensures |ws| == |fs|
  {
    if fs == [] then []
    else
      var m := MaxImportance(fs);
      seq(|fs|, i requires 0 <= i < |fs| => BarWidth(fs[i].importance, m))
  }

  predicate AllPositive(fs: seq<FeatureImportance>) {
    forall i :: 0 <= i < |fs| ==> fs[i].importance > 0.0
  }

  /** With positive importances every width is a number in (0, 100], and a
      feature has width exactly 100 iff its importance is the maximum, so at
      least one bar is full. */
  lemma BarWidthBounds(fs: seq<FeatureImportance>)
    requires fs != [] && AllPositive(fs)
    ensures forall i :: 0 <= i < |fs| ==>
              BarWidths(fs)[i].Some? && 0.0 < BarWidths(fs)[i].value <= 100.0
    ensures forall i :: 0 <= i < |fs| ==>
              (BarWidths(fs)[i] == Some(100.0) <==> fs[i].importance == MaxImportance(fs))
    ensures exists i :: 0 <= i < |fs| && BarWidths(fs)[i] == Some(100.0)
  {
    var m := MaxImportance(fs);
    var ws := BarWidths(fs);
    assert m > 0.0 by {
      var j :| 0 <= j < |fs| && fs[j].importance == m;
    }
    forall i | 0 <= i < |fs|
      ensures ws[i].Some? && 0.0 < ws[i].value <= 100.0
      ensures ws[i] == Some(100.0) <==> fs[i].importance == m
    {
      WidthOfShare(fs[i].importance, m);
    }
    var j :| 0 <= j < |fs| && fs[j].importance == m;
    assert ws[j] == Some(100.0);
  }

  lemma WidthOfShare(x: real, m: real)
    requires 0.0 < x <= m
    ensures 0.0 < x / m * 100.0 <= 100.0
    ensures x / m * 100.0 == 100.0 <==> x == m
  {
    assert x / m <= 1.0 by {
      assert x / m * m == x;
    }
    if x / m * 100.0 == 100.0 {
      assert x / m == 1.0;
      assert x == x / m * m;
    }
  }

  // ---------------------------------------------------------------- colour and rank

  /** `getCategoryColor`: blue for environmental variables, green otherwise. */
  function CategoryColor(category: string): (color: string)
    ensures color == "#3B82F6" <==> category == "Environmental"
    ensures color == "#10B981" <==> category != "Environmental"
  {
    if category == "Environmental" then "#3B82F6" else "#10B981"
  }

  /** The colour classes of the category badge next to the name. */
  function CategoryBadge(category: string): (classes: string)
    ensures classes == "bg-blue-100 text-blue-700" <==> CategoryColor(category) == "#3B82F6"
  {
    if category == "Environmental" then "bg-blue-100 text-blue-700" else "bg-green-100 text-green-700"
  }

  /** `index + 1`: the rank labels are 1, 2, ..., n in list order. */
  function Ranks(fs: seq<FeatureImportance>): (ranks: seq<nat>)
    ensures |ranks| == |fs|
    ensures forall i :: 0 <= i < |ranks| ==> 1 <= ranks[i] <= |fs|
    ensures forall i, j :: 0 <= i < j < |ranks| ==> ranks[i] < ranks[j]
  {
    seq(|fs|, i requires 0 <= i < |fs| => i + 1)
  }

  // ---------------------------------------------------------------- display name

  /** `s.replace(from, to)` with a one-character string pattern: only the
      first occurrence is replaced. */
  function ReplaceFirst(s: string, from: char, to: char): (r: string)
    ensures |r| == |s|
    ensures from !in s ==> r == s
  {
    if s == [] then []
    else if s[0] == from then [to] + s[1..]
    else [s[0]] + ReplaceFirst(s[1..], from, to)
  }

  /** The first occurrence becomes `to`; everything before and after it,
      later occurrences included, is kept. */
  lemma {:induction false} ReplaceFirstSpec(s: string, from: char, to: char, k: nat)
    requires k < |s| && s[k] == from && from !in s[..k]
    ensures ReplaceFirst(s, from, to)[k] == to
    ensures forall i :: 0 <= i < |s| && i != k ==> ReplaceFirst(s, from, to)[i] == s[i]
  {
    if k > 0 {
      assert s[0] != from by {
        assert s[..k][0] == s[0];
      }
      assert s[1..][..k - 1] == s[..k][1..];
      ReplaceFirstSpec(s[1..], from, to, k - 1);
    }
  }

  /** Replacing the first occurrence removes exactly one copy of it. */
  lemma {:induction false} ReplaceFirstCount(s: string, from: char, to: char)
    requires from in s && from != to
    ensures multiset(ReplaceFirst(s, from, to))[from] == multiset(s)[from] - 1
  {
    assert s == [s[0]] + s[1..];
    if s[0] != from {
      ReplaceFirstCount(s[1..], from, to);
    } else {
      assert ReplaceFirst(s, from, to) == [to] + s[1..];
    }
  }

  /** `\w`: an ASCII letter, digit or underscore. */
  predicate IsWordChar(c: char) {
    ('a' <= c <= 'z') || ('A' <= c <= 'Z') || ('0' <= c <= '9') || c == '_'
  }

  /** Where `/\b\w/` matches: a word character at the start or after a non-word one. */
  predicate WordStart(s: string, i: int)
    requires 0 <= i < |s|
  {
    IsWordChar(s[i]) && (i == 0 || !IsWordChar(s[i - 1]))
  }

  /** `toUpperCase` on the characters `\w` matches: only a to z change. */
  function UpperAscii(c: char): (u: char)
    ensures 'a' <= c <= 'z' ==> u == (c as int - 32) as char && 'A' <= u <= 'Z'
    ensures !('a' <= c <= 'z') ==> u == c
    ensures IsWordChar(c) <==> IsWordChar(u)
  {
    if 'a' <= c <= 'z' then (c as int - 32) as char else c
  }

  /** `s.replace(/\b\w/g, l => l.toUpperCase())`: each word's first character upper-cased. */
  function CapitalizeWords(s: string): (r: string)
    ensures |r| == |s|
  {
    seq(|s|, i requires 0 <= i < |s| => if WordStart(s, i) then UpperAscii(s[i]) else s[i])
  }

  /** Every word that starts with a lower-case letter gets it upper-cased, no
      other character changes, and capitalising again changes nothing. */
  lemma CapitalizeWordsSpec(s: string)
    ensures forall i :: 0 <= i < |s| && CapitalizeWords(s)[i] != s[i] ==>
              WordStart(s, i) && 'a' <= s[i] <= 'z' && CapitalizeWords(s)[i] == (s[i] as int - 32) as char
    ensures forall i :: 0 <= i < |s| && WordStart(s, i) && 'a' <= s[i] <= 'z' ==>
              CapitalizeWords(s)[i] == (s[i] as int - 32) as char
    ensures CapitalizeWords(CapitalizeWords(s)) == CapitalizeWords(s)
  {
    var r := CapitalizeWords(s);
    forall i | 0 <= i < |s| ensures WordStart(r, i) == WordStart(s, i) {
      if i > 0 {
        assert IsWordChar(r[i - 1]) == IsWordChar(s[i - 1]);
      }
    }
  }

  /** The name shown for a feature. */
  function DisplayName(feature: string): (shown: string)
    ensures |shown| == |feature|
  {
    CapitalizeWords(ReplaceFirst(feature, '_', ' '))
  }

  /** "pH_level" is shown as "PH Level": the capital H is kept. */
  lemma DisplayNameExample()
    ensures DisplayName("pH_level") == "PH Level"
  {
    PhSpaced("pH_level");
    PhCapitalized("pH level");
  }

  // The literal is passed as a parameter so that the verifier does not unfold
  // ReplaceFirst over all eight characters at once, which exceeds its budget.
  lemma PhSpaced(s: string)
    requires s == "pH_level"
    ensures ReplaceFirst(s, '_', ' ') == "pH level"
  {
    assert s[..2] == "pH";
    ReplaceFirstSpec(s, '_', ' ', 2);
  }

  // As for PhSpaced: the parameter keeps CapitalizeWords from being unfolded
  // over the whole literal in one step.
  lemma PhCapitalized(t: string)
    requires t == "pH level"
    ensures CapitalizeWords(t) == "PH Level"
  {
    assert WordStart(t, 0) && !WordStart(t, 1) && WordStart(t, 3);
    assert forall i :: 0 <= i < |t| && i != 0 && i != 3 ==> !WordStart(t, i);
  }

  /** In "a_b_c" only the first underscore becomes a space, and the letter after
      the second one stays lower case because `_` is itself a word character. */
  lemma DisplayNameLaterUnderscore()
    ensures DisplayName("a_b_c") == "A B_c"
  {
    var t := ReplaceFirst("a_b_c", '_', ' ');
    assert t == "a b_c";
    assert WordStart(t, 0) && WordStart(t, 2) && !WordStart(t, 4);
  }
}
