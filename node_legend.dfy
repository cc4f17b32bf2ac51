/** The node-type legend (app/masters/factory/node-legend.tsx): one entry per
    entry of the fixed icon table, each labelled by splitting the type on
    "_", capitalising each word and joining the words with spaces. */
module NodeLegend {
  import opened Js
  import Links

  // ---------------------------------------------------------------------
  // split / map / join, as the legend calls them
  // ---------------------------------------------------------------------

  /** `s.split(sep)`: never empty; the empty string splits into one empty
      word, and adjacent separators give empty words between them. */
  function Split(s: string, sep: char): (r: seq<string>)
    ensures |r| >= 1
  {
    if s == [] then [[]]
    else if s[0] == sep then [[]] + Split(s[1..], sep)
    else
      var rest := Split(s[1..], sep);
      [[s[0]] + rest[0]] + rest[1..]
  }

  /** `word.charAt(0).toUpperCase() + word.slice(1)` */
  function Capitalize(w: string): (r: string)
    ensures |r| == |w|
  {
    if w == [] then [] else [UpperChar(w[0])] + w[1..]
  }

  function CapitalizeAll(ws: seq<string>): (r: seq<string>)
    ensures |r| == |ws|
  {
    if ws == [] then [] else [Capitalize(ws[0])] + CapitalizeAll(ws[1..])
  }

  /** `ws.join(sep)` */
  function Join(ws: seq<string>, sep: char): string
  {
    if ws == [] then []
    else if |ws| == 1 then ws[0]
    else ws[0] + [sep] + Join(ws[1..], sep)
  }

  /** The legend label of a node type. */
  function Label(t: string): string
  {
    Join(CapitalizeAll(Split(t, '_')), ' ')
  }

  // ---------------------------------------------------------------------
  // A character-by-character reference definition
  // ---------------------------------------------------------------------

  /** The character at `i` of a label: "_" becomes a space, and the first
      character (when `cap` holds) and each character right after a "_" is
      upper-cased; all other characters are kept. */
  function SpelledAt(s: string, i: nat, cap: bool): char
    requires i < |s|
  {
    if s[i] == '_' then ' '
    else if (i == 0 && cap) || (i > 0 && s[i - 1] == '_') then UpperChar(s[i])
    else s[i]
  }

  function Spelled(s: string, cap: bool): (r: string)
    ensures |r| == |s|
    ensures forall i :: 0 <= i < |s| ==> r[i] == SpelledAt(s, i, cap)
  {
    seq(|s|, i requires 0 <= i < |s| => SpelledAt(s, i, cap))
  }

  lemma {:induction false} SpelledCons(s: string, cap: bool)
    requires s != []
    ensures Spelled(s, cap) == [SpelledAt(s, 0, cap)] + Spelled(s[1..], s[0] == '_')
  {
    var r := [SpelledAt(s, 0, cap)] + Spelled(s[1..], s[0] == '_');
    forall i | 1 <= i < |s|
      ensures r[i] == SpelledAt(s, i, cap)
    {
      assert s[1..][i - 1] == s[i];
      if i > 1 {
        assert s[1..][i - 2] == s[i - 1];
      }
    }
  }

  lemma {:induction false} JoinCons(c: char, w: string, ws: seq<string>, sep: char)
    ensures Join([[c] + w] + ws, sep) == [c] + Join([w] + ws, sep)
  {
    if ws != [] {
      assert ([[c] + w] + ws)[1..] == ws;
      assert ([w] + ws)[1..] == ws;
    }
  }

  /** The split/capitalise/join pipeline, with the first word capitalised
      only when `cap` holds, spells `s` as `Spelled` does. */
  lemma {:induction false} PipelineSpelled(s: string, cap: bool)
    ensures var r := Split(s, '_');
      Join([if cap then Capitalize(r[0]) else r[0]] + CapitalizeAll(r[1..]), ' ') == Spelled(s, cap)
  {
    if s == [] {
    } else if s[0] == '_' {
      SpelledCons(s, cap);
      PipelineSpelled(s[1..], true);
      var rest := Split(s[1..], '_');
      var r := Split(s, '_');
      assert r == [[]] + rest;
      assert r[1..] == rest;
      assert CapitalizeAll(rest) == [Capitalize(rest[0])] + CapitalizeAll(rest[1..]);
      var ws := [[]] + CapitalizeAll(rest);
      assert ws[1..] == CapitalizeAll(rest);
      assert Join(ws, ' ') == [] + [' '] + Join(CapitalizeAll(rest), ' ');
    } else {
      SpelledCons(s, cap);
      PipelineSpelled(s[1..], false);
      var rest := Split(s[1..], '_');
      var r := Split(s, '_');
      assert r[0] == [s[0]] + rest[0] && r[1..] == rest[1..];
      var c := if cap then UpperChar(s[0]) else s[0];
      assert (if cap then Capitalize(r[0]) else r[0]) == [c] + rest[0];
      JoinCons(c, rest[0], CapitalizeAll(rest[1..]), ' ');
    }
  }

  /** The label spells the type character by character: "_" becomes a
      space and the first letter of each word is upper-cased. */
  lemma {:induction false} LabelSpelled(t: string)
    ensures Label(t) == Spelled(t, true)
  {
    PipelineSpelled(t, true);
    var r := Split(t, '_');
    assert CapitalizeAll(r) == [Capitalize(r[0])] + CapitalizeAll(r[1..]);
  }

  /** Labels keep the length of the type. */
  lemma {:induction false} LabelLength(t: string)
    ensures |Label(t)| == |t|
  {
    LabelSpelled(t);
  }

  /** Lower-casing a label and turning its spaces back into "_". */
  function Unlabel(l: string): (r: string)
    ensures |r| == |l|
    ensures forall i :: 0 <= i < |l| ==> r[i] == (if l[i] == ' ' then '_' else LowerChar(l[i]))
  {
    if l == [] then [] else [if l[0] == ' ' then '_' else LowerChar(l[0])] + Unlabel(l[1..])
  }

  /** A type with no capital letters and no spaces is recovered from its
      label. */
  lemma {:induction false} LabelRoundTrip(t: string)
    requires forall i :: 0 <= i < |t| ==> !IsUpper(t[i]) && t[i] != ' '
    ensures Unlabel(Label(t)) == t
  {
    LabelSpelled(t);
    var l := Spelled(t, true);
    forall i | 0 <= i < |t|
      ensures Unlabel(l)[i] == t[i]
    {
      var c := t[i];
      if c == '_' {
      } else if IsLower(c) {
        assert l[i] == c || l[i] == UpperChar(c);
        assert LowerChar(UpperChar(c)) == c;
      } else {
        assert l[i] == c;
      }
    }
  }

  // ---------------------------------------------------------------------
  // The legend
  // ---------------------------------------------------------------------

  /** The keys of the icon table, in declaration order. */
  function LegendTypes(): (r: seq<string>)
    ensures |r| == 5
  {
    ["facility", "area", "mini_factory", "line", "workstation"]
  }

  /** `Object.entries(nodeIcons).map(...)`: each entry's type and label. */
  function Legend(): (r: seq<(string, string)>)
    ensures |r| == |LegendTypes()|
    ensures forall i :: 0 <= i < |r| ==> r[i] == (LegendTypes()[i], Label(LegendTypes()[i]))
  {
    seq(|LegendTypes()|, i requires 0 <= i < |LegendTypes()| => (LegendTypes()[i], Label(LegendTypes()[i])))
  }

  /** The legend lists the five ranked types from the top of the hierarchy
      down, i.e. its i-th entry has rank i + 1. */
  lemma {:induction false} LegendInRankOrder()
    ensures forall i :: 0 <= i < |LegendTypes()| ==> Links.Rank(LegendTypes()[i]) == Some(i + 1)
  {
    var ts := LegendTypes();
    assert ts[0] == "facility" && ts[1] == "area" && ts[2] == "mini_factory";
    assert ts[3] == "line" && ts[4] == "workstation";
  }

  /** A word without "_" splits into itself. */
  lemma {:induction false} SplitWord(w: string, sep: char)
    requires sep !in w
    ensures Split(w, sep) == [w]
  {
    if w != [] {
      SplitWord(w[1..], sep);
      assert [w[0]] + w[1..] == w;
    }
  }

  /** Splitting at the first separator. */
  lemma {:induction false} SplitFirst(w: string, sep: char, more: string)
    requires sep !in w
    ensures Split(w + [sep] + more, sep) == [w] + Split(more, sep)
  {
    var s := w + [sep] + more;
    if w == [] {
      assert s[1..] == more;
    } else {
      assert s[1..] == w[1..] + [sep] + more;
      SplitFirst(w[1..], sep, more);
      assert [w[0]] + w[1..] == w;
    }
  }

  /** A single word is capitalised. */
  lemma {:induction false} WordLabel(w: string)
    requires '_' !in w
    ensures Label(w) == Capitalize(w)
  {
    SplitWord(w, '_');
  }

  /** A word that starts with `c`. */
  lemma {:induction false} WordLabelIs(t: string, c: char, rest: string)
    requires t == [c] + rest && '_' !in t
    ensures Label(t) == [UpperChar(c)] + rest
  {
    SplitWord(t, '_');
    assert t[1..] == rest;
  }

  /** Two words joined by "_" are capitalised and joined by a space. */
  lemma {:induction false} TwoWordLabel(w1: string, w2: string)
    requires '_' !in w1 && '_' !in w2
    ensures Label(w1 + ['_'] + w2) == Capitalize(w1) + [' '] + Capitalize(w2)
  {
    SplitFirst(w1, '_', w2);
    SplitWord(w2, '_');
    assert Split(w1 + ['_'] + w2, '_') == [w1, w2];
    var ws := [Capitalize(w1), Capitalize(w2)];
    assert CapitalizeAll([w1, w2]) == ws by {
      assert [w1, w2][1..] == [w2];
      assert CapitalizeAll([w2]) == [Capitalize(w2)];
    }
    assert ws[1..] == [Capitalize(w2)];
    assert Join(ws, ' ') == Capitalize(w1) + [' '] + Capitalize(w2);
  }

  /** "mini_factory" becomes "Mini Factory". */
  lemma {:induction false} MiniFactoryLabel(t: string)
    requires t == "mini_factory"
    ensures Label(t) == "Mini Factory"
  {
    var w1, w2 := "mini", "factory";
    TwoWordLabel(w1, w2);
    assert w1 + ['_'] + w2 == t;
    assert Capitalize(w1) == "Mini" by {
      assert w1 == ['m'] + "ini";
    }
    assert Capitalize(w2) == "Factory" by {
      assert w2 == ['f'] + "actory";
    }
  }

  /** The single-word types are capitalised. */
  lemma {:induction false} FacilityLabel(t: string)
    requires t == "facility"
    ensures Label(t) == "Facility"
  {
    WordLabelIs(t, 'f', "acility");
  }

  lemma {:induction false} AreaLabel(t: string)
    requires t == "area"
    ensures Label(t) == "Area"
  {
    WordLabelIs(t, 'a', "rea");
  }

  lemma {:induction false} LineLabel(t: string)
    requires t == "line"
    ensures Label(t) == "Line"
  {
    WordLabelIs(t, 'l', "ine");
  }

  lemma {:induction false} WorkstationLabel(t: string)
    requires t == "workstation"
    ensures Label(t) == "Workstation"
  {
    WordLabelIs(t, 'w', "orkstation");
  }
}
