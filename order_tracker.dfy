/** The customer's order progress bar: a status text is normalised and
    mapped to the index of the last filled step, from -1 (none) to 2. */
module OrderTracker {
  import opened Text
  import opened JsValue

  /** A character of the class `[-\s]`. */
  predicate IsSep(c: char) { c == '-' || IsWhite(c) }

  predicate NoSeps(s: string) { forall i :: 0 <= i < |s| ==> !IsSep(s[i]) }

  /** `s` without its leading run of separators. */
  function DropSeps(s: string): (r: string)
    ensures r == [] || !IsSep(r[0])
    ensures |r| <= |s| && r == s[|s| - |r|..]
    ensures s != [] && IsSep(s[0]) ==> |r| < |s|
    ensures s == [] || !IsSep(s[0]) ==> r == s
  {
    if s != [] && IsSep(s[0]) then DropSeps(s[1..]) else s
  }

  /** The text with each run of '-' and white space replaced by one '_'. */
  function Collapse(s: string): string
    decreases |s|
  {
    if s == [] then []
    else if IsSep(s[0]) then "_" + Collapse(DropSeps(s))
    else [s[0]] + Collapse(s[1..])
  }

  /** No separator survives the replacement. */
  lemma {:induction false} CollapseHasNoSeps(s: string)
    ensures NoSeps(Collapse(s))
    decreases |s|
  {
    if s == [] {
    } else if IsSep(s[0]) {
      var c := Collapse(DropSeps(s));
      CollapseHasNoSeps(DropSeps(s));
      assert forall i :: 1 <= i < |"_" + c| ==> ("_" + c)[i] == c[i - 1];
    } else {
      var c := Collapse(s[1..]);
      CollapseHasNoSeps(s[1..]);
      assert forall i :: 1 <= i < |[s[0]] + c| ==> ([s[0]] + c)[i] == c[i - 1];
    }
  }

  /** Text without separators is left as it is. */
  lemma {:induction false} CollapseNoSeps(s: string)
    requires NoSeps(s)
    ensures Collapse(s) == s
    decreases |s|
  {
    if s != [] { CollapseNoSeps(s[1..]); }
  }

  lemma {:induction false} DropSepsRun(run: string, y: string)
    requires forall i :: 0 <= i < |run| ==> IsSep(run[i])
    requires y == [] || !IsSep(y[0])
    ensures DropSeps(run + y) == y
    decreases |run|
  {
    if run == [] {
      assert run + y == y;
    } else {
      var rest := run[1..];
      assert (run + y)[0] == run[0];
      assert (run + y)[1..] == rest + y;
      forall i | 0 <= i < |rest| ensures IsSep(rest[i]) {
        assert rest[i] == run[i + 1];
      }
      DropSepsRun(rest, y);
    }
  }

  /** A run of separators between separator-free text becomes one '_'. */
  lemma {:induction false} CollapseRun(x: string, run: string, y: string)
    requires NoSeps(x) && run != [] && forall i :: 0 <= i < |run| ==> IsSep(run[i])
    requires y == [] || !IsSep(y[0])
    ensures Collapse(x + run + y) == x + "_" + Collapse(y)
    decreases |x|
  {
    if x == [] {
      assert x + run + y == run + y;
      DropSepsRun(run, y);
    } else {
      assert (x + run + y)[0] == x[0] && (x + run + y)[1..] == x[1..] + run + y;
      CollapseRun(x[1..], run, y);
    }
  }

  /** The status as the tracker compares it: its text ('' when missing), trimmed,
      uppercased, each run of '-' and white space turned into '_'. */
  function Normalize(status: Value): (r: string)
    ensures NoSeps(r)
  {
    var u := Upper(Trim(ToText(Coalesce(status, Str("")))));
    CollapseHasNoSeps(u);
    Collapse(u)
  }

  const NoneStatuses: seq<string> := ["RECEIVED", "DRAFT", "PENDING"]
  const PreparingStatuses: seq<string> := ["IN_PREPARATION", "PREPARING", "READY"]
  const OnTheWayStatuses: seq<string> := ["ON_THE_WAY", "OUT_FOR_DELIVERY", "EN_ROUTE", "DELIVERY"]
  const DeliveredStatuses: seq<string> := ["DELIVERED", "FINISHED"]

  /** The step a normalised status stands for. */
  function StepOf(s: string): (r: int)
    ensures -1 <= r <= 2
    ensures s == "" ==> r == -1
    ensures r == 2 <==> s in DeliveredStatuses
    ensures r == 1 <==> s in OnTheWayStatuses
    ensures r == 0 <==> s in PreparingStatuses
    ensures s in NoneStatuses ==> r == -1
  {
    if s == "" then -1
    else if s in DeliveredStatuses then 2
    else if s in OnTheWayStatuses then 1
    else if s in PreparingStatuses then 0
    else if s in NoneStatuses then -1
    else -1
  }

  /** `activeIndex()`: the last filled step. */
  function ActiveIndex(status: Value): (r: int)
    ensures -1 <= r <= 2
  {
    StepOf(Normalize(status))
  }

  /** Step `i` is filled: it comes no later than the active step. */
  predicate IsFilled(status: Value, i: int) { i <= ActiveIndex(status) }

  /** The filled steps form a prefix: a step before a filled step is filled. */
  lemma FilledIsPrefix(status: Value, i: int, j: int)
    requires j <= i && IsFilled(status, i)
    ensures IsFilled(status, j)
  {
  }

  /** Every step is filled for a delivered order and none for an unknown status. */
  lemma FilledSteps(status: Value)
    ensures Normalize(status) in DeliveredStatuses ==> forall i :: 0 <= i <= 2 ==> IsFilled(status, i)
    ensures ActiveIndex(status) == -1 ==> forall i :: 0 <= i <= 2 ==> !IsFilled(status, i)
  {
  }

  lemma UpperSpaced()
    ensures Upper("on the way") == "ON" + " " + "THE" + " " + "WAY"
  {
    var u := Upper("on the way");
    assert u[0] == 'O' && u[1] == 'N' && u[2] == ' ' && u[3] == 'T' && u[4] == 'H';
    assert u[5] == 'E' && u[6] == ' ' && u[7] == 'W' && u[8] == 'A' && u[9] == 'Y';
  }

  lemma UpperDashed()
    ensures Upper("on-the-way") == "ON" + "-" + "THE" + "-" + "WAY"
  {
    var u := Upper("on-the-way");
    assert u[0] == 'O' && u[1] == 'N' && u[2] == '-' && u[3] == 'T' && u[4] == 'H';
    assert u[5] == 'E' && u[6] == '-' && u[7] == 'W' && u[8] == 'A' && u[9] == 'Y';
  }

  lemma UpperCanonical()
    ensures Upper("ON_THE_WAY") == "ON_THE_WAY"
  {
    var u := Upper("ON_THE_WAY");
    assert u[0] == 'O' && u[1] == 'N' && u[2] == '_' && u[3] == 'T' && u[4] == 'H';
    assert u[5] == 'E' && u[6] == '_' && u[7] == 'W' && u[8] == 'A' && u[9] == 'Y';
  }

  /** Three separator-free words joined by one separator character each. */
  lemma CollapseThree(x: string, y: string, z: string, sep: string)
    requires NoSeps(x) && NoSeps(y) && NoSeps(z) && y != [] && z != []
    requires |sep| == 1 && IsSep(sep[0])
    ensures Collapse(x + sep + y + sep + z) == x + "_" + y + "_" + z
  {
    CollapseNoSeps(z);
    CollapseRun(y, sep, z);
    CollapseRun(x, sep, y + sep + z);
    assert x + sep + y + sep + z == x + sep + (y + sep + z);
    assert x + "_" + (y + "_" + z) == x + "_" + y + "_" + z;
  }

  lemma OnTheWayJoined()
    ensures "ON" + "_" + "THE" + "_" + "WAY" == "ON_THE_WAY"
  {
    var w := "ON" + "_" + "THE" + "_" + "WAY";
    assert |w| == 10;
    assert w[0] == 'O' && w[1] == 'N' && w[2] == '_' && w[3] == 'T' && w[4] == 'H';
    assert w[5] == 'E' && w[6] == '_' && w[7] == 'W' && w[8] == 'A' && w[9] == 'Y';
  }

  /** Both separators between the three words become '_'. */
  lemma CollapseWords(sep: string)
    requires sep == " " || sep == "-"
    ensures Collapse("ON" + sep + "THE" + sep + "WAY") == "ON_THE_WAY"
  {
    assert NoSeps("WAY") && NoSeps("THE") && NoSeps("ON");
    CollapseThree("ON", "THE", "WAY", sep);
    OnTheWayJoined();
  }

  /** A text status is normalised from the text itself. */
  lemma NormalizeText(t: string)
    ensures Normalize(Str(t)) == Collapse(Upper(Trim(t)))
  {
    assert ToText(Coalesce(Str(t), Str(""))) == t;
  }

  /** A status that trims to itself and whose upper-cased text collapses to
      `target` normalises to `target`. */
  lemma NormalizeTo(t: string, u: string, target: string)
    requires Trim(t) == t && Upper(t) == u && Collapse(u) == target
    ensures Normalize(Str(t)) == target
  {
    NormalizeText(t);
  }

  lemma NormalizeOnTheWaySpaced()
    ensures Normalize(Str("on the way")) == "ON_THE_WAY"
  {
    TrimNoWhiteEnds("on the way");
    UpperSpaced();
    CollapseWords(" ");
    NormalizeTo("on the way", "ON" + " " + "THE" + " " + "WAY", "ON_THE_WAY");
  }

  lemma NormalizeOnTheWayDashed()
    ensures Normalize(Str("on-the-way")) == "ON_THE_WAY"
  {
    TrimNoWhiteEnds("on-the-way");
    UpperDashed();
    CollapseWords("-");
    NormalizeTo("on-the-way", "ON" + "-" + "THE" + "-" + "WAY", "ON_THE_WAY");
  }

  lemma TrimStartOne(t: string)
    requires |t| >= 2 && t[0] == ' ' && !IsWhite(t[1])
    ensures TrimStart(t) == t[1..]
  {
    assert t[1..][0] == t[1];
  }

  lemma TrimEndOne(t: string)
    requires |t| >= 2 && t[|t| - 1] == ' ' && !IsWhite(t[|t| - 2])
    ensures TrimEnd(t) == t[..|t| - 1]
  {
    var w := t[..|t| - 1];
    assert w[|w| - 1] == t[|t| - 2];
  }

  /** One space on either side of a word is cut by `trim()`. */
  lemma TrimSpaced(t: string)
    requires |t| >= 3 && t[0] == ' ' && t[|t| - 1] == ' '
    requires !IsWhite(t[1]) && !IsWhite(t[|t| - 2])
    ensures Trim(t) == t[1..|t| - 1]
  {
    var u := t[1..];
    TrimStartOne(t);
    assert u[|u| - 1] == ' ' && u[|u| - 2] == t[|t| - 2];
    TrimEndOne(u);
    assert u[..|u| - 1] == t[1..|t| - 1];
  }

  lemma TrimPadded()
    ensures Trim(" ON_THE_WAY ") == "ON_THE_WAY"
  {
    var t := " ON_THE_WAY ";
    TrimSpaced(t);
    var w := t[1..|t| - 1];
    assert |w| == 10;
    assert w[0] == 'O' && w[1] == 'N' && w[2] == '_' && w[3] == 'T' && w[4] == 'H';
    assert w[5] == 'E' && w[6] == '_' && w[7] == 'W' && w[8] == 'A' && w[9] == 'Y';
  }

  lemma NormalizeOnTheWayPadded()
    ensures Normalize(Str(" ON_THE_WAY ")) == "ON_THE_WAY"
  {
    TrimPadded();
    UpperCanonical();
    CanonicalCollapse();
    NormalizeText(" ON_THE_WAY ");
  }

  lemma CanonicalCollapse()
    ensures Collapse("ON_THE_WAY") == "ON_THE_WAY"
  {
    var w := "ON_THE_WAY";
    forall i | 0 <= i < |w| ensures !IsSep(w[i]) {
      assert 'A' <= w[i] <= 'Z' || w[i] == '_';
    }
    CollapseNoSeps(w);
  }

  /** 'on the way', 'on-the-way' and ' ON_THE_WAY ' all mean the second step. */
  lemma OnTheWaySpellings()
    ensures ActiveIndex(Str("on the way")) == 1
    ensures ActiveIndex(Str("on-the-way")) == 1
    ensures ActiveIndex(Str(" ON_THE_WAY ")) == 1
  {
    NormalizeOnTheWaySpaced();
    NormalizeOnTheWayDashed();
    NormalizeOnTheWayPadded();
  }
}
