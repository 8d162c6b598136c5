/** Truncating text to a terminal width without cutting a character cluster in two. */
module TerminalText {

  /** The Unicode tables the code consults: `mark` is category Cf, Me or Mn; `wide` is an East Asian
      width of F or W; `control` is category Cc. */
  datatype Tables = Tables(combining: char -> bool, mark: char -> bool, wide: char -> bool, control: char -> bool)

  const ELLIPSIS := '\U{2026}'
  const JOINER := '\U{200D}'
  const EMOJI_STYLE := '\U{FE0F}'
  const KEYCAP := '\U{20E3}'

  predicate Plain(t: Tables, c: char) {
    !t.combining(c) && !t.mark(c) && !t.wide(c) && !t.control(c)
  }

  /** What Unicode says of the characters the code itself writes. */
  predicate Standard(t: Tables) {
    Plain(t, ELLIPSIS) && Plain(t, ' ') && Plain(t, '?')
  }

  predicate IsExtension(t: Tables, c: char) {
    t.combining(c) || t.mark(c) || '\U{1F3FB}' <= c <= '\U{1F3FF}'
  }

  function CharacterWidth(t: Tables, c: char): (w: nat) {
    if t.combining(c) then 0 else if t.mark(c) then 0 else if t.wide(c) then 2 else 1
  }

  function Measured(t: Tables, cluster: string): (w: nat) {
    if cluster == [] then 0
    else Measured(t, cluster[..|cluster| - 1]) + CharacterWidth(t, cluster[|cluster| - 1])
  }

  function ClusterWidth(t: Tables, cluster: string): (w: nat) {
    var measured := Measured(t, cluster);
    if (EMOJI_STYLE in cluster || KEYCAP in cluster) && measured < 2 then 2 else measured
  }

  function TotalWidth(t: Tables, clusters: seq<string>): (w: nat) {
    if clusters == [] then 0
    else TotalWidth(t, clusters[..|clusters| - 1]) + ClusterWidth(t, clusters[|clusters| - 1])
  }

  function Join(clusters: seq<string>): (s: string) {
    if clusters == [] then [] else Join(clusters[..|clusters| - 1]) + clusters[|clusters| - 1]
  }

  // ----- normalisation -----

  function NormalizeCharacter(t: Tables, c: char): string {
    if c == '\t' then "    "
    else if c == '\n' || c == '\r' then " "
    else if t.control(c) then "?"
    else [c]
  }

  function Normalize(t: Tables, value: string): (s: string) {
    if value == [] then []
    else Normalize(t, value[..|value| - 1]) + NormalizeCharacter(t, value[|value| - 1])
  }

  method NormalizeText(t: Tables, value: string) returns (s: string)
    ensures s == Normalize(t, value)
  {
    s := [];
    for i := 0 to |value|
      invariant s == Normalize(t, value[..i])
    {
      assert value[..i + 1][..|value[..i + 1]| - 1] == value[..i];
      s := s + NormalizeCharacter(t, value[i]);
    }
    assert value[..|value|] == value;
  }

  lemma NormalizeLast(t: Tables, front: string, c: char)
    ensures Normalize(t, front + [c]) == Normalize(t, front) + NormalizeCharacter(t, c)
  {
    hide NormalizeCharacter;
    assert (front + [c])[..|front|] == front;
  }

  lemma {:induction false} NormalizeConcat(t: Tables, a: string, b: string)
    ensures Normalize(t, a + b) == Normalize(t, a) + Normalize(t, b)
    decreases |b|
  {
    hide NormalizeCharacter;
    if b == [] {
      assert a + b == a;
    } else {
      hide Normalize;
      var front, c := b[..|b| - 1], b[|b| - 1];
      assert b == front + [c] && a + b == a + front + [c];
      NormalizeConcat(t, a, front);
      NormalizeLast(t, a + front, c);
      NormalizeLast(t, front, c);
      Associative(Normalize(t, a), Normalize(t, front), NormalizeCharacter(t, c));
    }
  }

  lemma Associative(a: string, b: string, c: string)
    ensures a + b + c == a + (b + c)
  {
  }

  /** Every character is replaced for itself, wherever it stands: a tab by four blanks, a line end by one, any
      other control by a question mark, and the rest by nothing. */
  lemma EachCharacterAlone(t: Tables, a: string, c: char, b: string)
    ensures var shown :=
        if c == '\t' then "    " else if c in {'\n', '\r'} then " " else if t.control(c) then "?" else [c];
      Normalize(t, a + [c] + b) == Normalize(t, a) + shown + Normalize(t, b)
  {
    NormalizeConcat(t, a + [c], b);
    NormalizeConcat(t, a, [c]);
    assert [c][..0] == [];
    assert Normalize(t, [c]) == [] + NormalizeCharacter(t, c);
    assert [] + NormalizeCharacter(t, c) == NormalizeCharacter(t, c);
  }

  predicate CleanCharacter(t: Tables, c: char) {
    c != '\t' && c != '\n' && c != '\r' && !t.control(c)
  }

  predicate Clean(t: Tables, s: string) {
    forall i :: 0 <= i < |s| ==> CleanCharacter(t, s[i])
  }

  lemma {:induction false} NormalizeCleans(t: Tables, value: string)
    requires Standard(t)
    ensures Clean(t, Normalize(t, value))
  {
    if value != [] { NormalizeCleans(t, value[..|value| - 1]); }
  }

  lemma {:induction false} CleanIsNormal(t: Tables, s: string)
    requires Clean(t, s)
    ensures Normalize(t, s) == s
  {
    if s != [] {
      CleanIsNormal(t, s[..|s| - 1]);
      assert s == s[..|s| - 1] + [s[|s| - 1]];
    }
  }

  // ----- clusters -----

  /** The loop's variables. */
  datatype Scan = Scan(clusters: seq<string>, current: string, joinNext: bool)

  const EMPTY_SCAN := Scan([], [], false)

  function Feed(t: Tables, s: Scan, c: char): Scan {
    if s.current == [] then Scan(s.clusters, [c], c == JOINER)
    else if s.joinNext || c == JOINER || IsExtension(t, c) then Scan(s.clusters, s.current + [c], c == JOINER)
    else Scan(s.clusters + [s.current], [c], c == JOINER)
  }

  function FeedAll(t: Tables, value: string): (s: Scan) {
    if value == [] then EMPTY_SCAN else Feed(t, FeedAll(t, value[..|value| - 1]), value[|value| - 1])
  }

  function Clusters(t: Tables, value: string): (clusters: seq<string>) {
    var s := FeedAll(t, value);
    if s.current == [] then s.clusters else s.clusters + [s.current]
  }

  method TerminalClusters(t: Tables, value: string) returns (clusters: seq<string>)
    ensures clusters == Clusters(t, value)
  {
    clusters := [];
    var current, joinNext := "", false;
    for i := 0 to |value|
      invariant Scan(clusters, current, joinNext) == FeedAll(t, value[..i])
    {
      assert value[..i + 1][..|value[..i + 1]| - 1] == value[..i];
      var c := value[i];
      if current == [] {
        current := [c];
      } else if joinNext || c == JOINER || IsExtension(t, c) {
        current := current + [c];
      } else {
        clusters := clusters + [current];
        current := [c];
      }
      joinNext := c == JOINER;
    }
    assert value[..|value|] == value;
    if current != [] { clusters := clusters + [current]; }
  }

  // Feeding one more character extends the last cluster or starts one.
  lemma ClustersAfter(t: Tables, value: string, c: char)
    ensures var s, cs, cs' := FeedAll(t, value), Clusters(t, value), Clusters(t, value + [c]);
      if s.current != [] && (s.joinNext || c == JOINER || IsExtension(t, c))
      then cs != [] && cs' == cs[..|cs| - 1] + [cs[|cs| - 1] + [c]]
      else cs' == cs + [[c]]
  {
    assert (value + [c])[..|value + [c]| - 1] == value;
    ScanShape(t, value);
  }

  lemma {:induction false} ScanShape(t: Tables, value: string)
    ensures var s := FeedAll(t, value);
      && (s.current == [] ==> value == [] && s.clusters == [])
      && (s.current != [] ==> s.current[|s.current| - 1] == value[|value| - 1])
      && (s.joinNext <==> value != [] && value[|value| - 1] == JOINER)
      && (value == [] ==> s.current == [])
  {
    if value != [] { ScanShape(t, value[..|value| - 1]); }
  }

  lemma JoinLast(clusters: seq<string>, last: string)
    ensures Join(clusters + [last]) == Join(clusters) + last
  {
    assert (clusters + [last])[..|clusters + [last]| - 1] == clusters;
  }

  /** The clusters put back together are the text. */
  lemma {:induction false} ClustersJoin(t: Tables, value: string)
    ensures Join(Clusters(t, value)) == value
  {
    if value != [] {
      var before, c := value[..|value| - 1], value[|value| - 1];
      ClustersJoin(t, before);
      ClustersAfter(t, before, c);
      assert before + [c] == value;
      var cs := Clusters(t, before);
      JoinLast(cs, [c]);
      if cs != [] {
        var front, last := cs[..|cs| - 1], cs[|cs| - 1];
        JoinLast(front, last + [c]);
        JoinLast(front, last);
        assert front + [last] == cs;
      }
    }
  }

  /** Between these two characters a new cluster starts: no joiner is next to the gap, and what follows is no
      combining mark, format character or skin tone. */
  predicate Breaks(t: Tables, a: char, c: char) {
    a != JOINER && c != JOINER && !t.combining(c) && !t.mark(c) && !('\U{1F3FB}' <= c <= '\U{1F3FF}')
  }

  /** The cluster is not empty and has no gap inside. */
  predicate Whole(t: Tables, cluster: string) {
    cluster != [] && forall i :: 0 < i < |cluster| ==> !Breaks(t, cluster[i - 1], cluster[i])
  }

  predicate AllWhole(t: Tables, cs: seq<string>) { forall k :: 0 <= k < |cs| ==> Whole(t, cs[k]) }

  predicate EndsWith(cluster: string, c: char) { cluster != [] && cluster[|cluster| - 1] == c }

  /** There is a gap between one cluster and the next. */
  predicate GapAfter(t: Tables, cs: seq<string>, k: nat)
    requires k + 1 < |cs|
  {
    cs[k] != [] && cs[k + 1] != [] && Breaks(t, cs[k][|cs[k]| - 1], cs[k + 1][0])
  }

  predicate GapsBetween(t: Tables, cs: seq<string>) { forall k: nat :: k + 1 < |cs| ==> GapAfter(t, cs, k) }

  lemma OneWhole(t: Tables, c: char)
    ensures AllWhole(t, [[c]]) && GapsBetween(t, [[c]]) && EndsWith([c], c)
  {
  }

  lemma WholeMore(t: Tables, cluster: string, a: char, c: char)
    requires Whole(t, cluster) && EndsWith(cluster, a) && !Breaks(t, a, c)
    ensures Whole(t, cluster + [c])
  {
    hide Breaks;
    var more := cluster + [c];
    forall i | 0 < i < |more| ensures !Breaks(t, more[i - 1], more[i]) {
      if i < |cluster| { assert more[i - 1] == cluster[i - 1] && more[i] == cluster[i]; }
    }
  }

  lemma LastGrows(t: Tables, cs: seq<string>, a: char, c: char)
    requires cs != [] && AllWhole(t, cs) && GapsBetween(t, cs) && EndsWith(cs[|cs| - 1], a) && !Breaks(t, a, c)
    ensures var cs' := cs[..|cs| - 1] + [cs[|cs| - 1] + [c]]; AllWhole(t, cs') && GapsBetween(t, cs')
  {
    hide Breaks, Whole;
    var n := |cs| - 1;
    var cs' := cs[..n] + [cs[n] + [c]];
    WholeMore(t, cs[n], a, c);
    forall k: nat | k + 1 < |cs'| ensures GapAfter(t, cs', k) {
      assert GapAfter(t, cs, k);
      assert cs'[k] == cs[k] && cs'[k + 1][0] == cs[k + 1][0];
    }
  }

  lemma OneStarts(t: Tables, cs: seq<string>, a: char, c: char)
    requires cs != [] && AllWhole(t, cs) && GapsBetween(t, cs) && EndsWith(cs[|cs| - 1], a) && Breaks(t, a, c)
    ensures AllWhole(t, cs + [[c]]) && GapsBetween(t, cs + [[c]])
  {
    hide Breaks, Whole;
    OneWhole(t, c);
    assert [[c]][0] == [c];
    forall k: nat | k + 1 < |cs + [[c]]| ensures GapAfter(t, cs + [[c]], k) {
      if k + 1 < |cs| { assert GapAfter(t, cs, k); }
    }
  }

  lemma JoinsOrBreaks(t: Tables, value: string, c: char)
    requires value != []
    ensures var s := FeedAll(t, value);
      s.current != [] && (s.joinNext || c == JOINER || IsExtension(t, c) <==> !Breaks(t, value[|value| - 1], c))
  {
    ScanShape(t, value);
  }

  /** No cluster is empty or has a gap inside, and there is a gap between neighbours. Put together they are the text,
      so these are the only clusters it has. */
  lemma {:induction false} ClustersExact(t: Tables, value: string)
    ensures AllWhole(t, Clusters(t, value)) && GapsBetween(t, Clusters(t, value))
    ensures value != [] ==>
      Clusters(t, value) != [] && EndsWith(Clusters(t, value)[|Clusters(t, value)| - 1], value[|value| - 1])
  {
    hide *;
    if value == [] {
      NoClusters(t);
    } else {
      var n := |value| - 1;
      var before, c := value[..n], value[n];
      assert before + [c] == value;
      ClustersExact(t, before);
      ClustersAfter(t, before, c);
      var cs := Clusters(t, before);
      LastIs(c);
      if before == [] {
        NoClusters(t);
        OneWhole(t, c);
        assert [] + [[c]] == [[c]];
      } else {
        JoinsOrBreaks(t, before, c);
        if Breaks(t, before[n - 1], c) {
          OneStarts(t, cs, before[n - 1], c);
        } else {
          LastGrows(t, cs, before[n - 1], c);
        }
      }
    }
  }

  lemma LastIs(c: char)
    ensures forall x: string :: EndsWith(x + [c], c)
    ensures EndsWith([c], c)
  {
  }

  lemma NoClusters(t: Tables)
    ensures Clusters(t, []) == [] && AllWhole(t, []) && GapsBetween(t, []) && !FeedAll(t, []).joinNext
    ensures FeedAll(t, []).current == []
  {
  }

  /** A run of whole clusters from the front is clustered the same way on its own. */
  lemma {:induction false} PrefixClusters(t: Tables, value: string, k: nat)
    requires k <= |Clusters(t, value)|
    ensures Clusters(t, Join(Clusters(t, value)[..k])) == Clusters(t, value)[..k]
    decreases |value|
  {
    var cs' := Clusters(t, value);
    ClustersJoin(t, value);
    if k == |cs'| {
      assert cs'[..k] == cs';
    } else {
      ScanShape(t, value);
      var before, c := value[..|value| - 1], value[|value| - 1];
      ClustersAfter(t, before, c);
      assert before + [c] == value;
      assert cs'[..k] == Clusters(t, before)[..k];
      PrefixClusters(t, before, k);
    }
  }

  // ----- widths -----

  lemma {:induction false} WidthGrows(t: Tables, clusters: seq<string>, i: nat, j: nat)
    requires i <= j <= |clusters|
    ensures TotalWidth(t, clusters[..i]) <= TotalWidth(t, clusters[..j])
    decreases j
  {
    if i < j {
      assert clusters[..j][..j - 1] == clusters[..j - 1];
      WidthGrows(t, clusters, i, j - 1);
    }
  }

  /** A character that moves no cursor. */
  predicate Weightless(t: Tables, c: char) { t.combining(c) || t.mark(c) }

  ghost function ShownAt(t: Tables, cluster: string): (at: set<nat>) {
    set i: nat | i < |cluster| && !Weightless(t, cluster[i])
  }

  ghost function WideAt(t: Tables, cluster: string): (at: set<nat>) {
    set i: nat | i < |cluster| && !Weightless(t, cluster[i]) && t.wide(cluster[i])
  }

  lemma PlacesGrow(t: Tables, cluster: string, c: char)
    ensures var n := |cluster|;
      && ShownAt(t, cluster + [c]) == ShownAt(t, cluster) + (if Weightless(t, c) then {} else {n})
      && WideAt(t, cluster + [c]) == WideAt(t, cluster) + (if !Weightless(t, c) && t.wide(c) then {n} else {})
      && n !in ShownAt(t, cluster) && n !in WideAt(t, cluster)
  {
    hide Weightless;
    var more := cluster + [c];
    forall i: nat ensures i in ShownAt(t, more) <==>
      i in ShownAt(t, cluster) + if Weightless(t, c) then {} else {|cluster|}
    {
      if i < |cluster| { assert more[i] == cluster[i]; }
    }
    forall i: nat ensures i in WideAt(t, more) <==>
      i in WideAt(t, cluster) + if !Weightless(t, c) && t.wide(c) then {|cluster|} else {}
    {
      if i < |cluster| { assert more[i] == cluster[i]; }
    }
  }

  lemma {:induction false} MeasuredIs(t: Tables, cluster: string)
    ensures Measured(t, cluster) == |ShownAt(t, cluster)| + |WideAt(t, cluster)|
  {
    hide ShownAt, WideAt;
    if cluster == [] {
      NothingShown(t);
    } else {
      var n := |cluster| - 1;
      MeasuredIs(t, cluster[..n]);
      PlacesGrow(t, cluster[..n], cluster[n]);
      assert cluster[..n] + [cluster[n]] == cluster;
    }
  }

  lemma NothingShown(t: Tables)
    ensures ShownAt(t, []) == {} && WideAt(t, []) == {}
  {
  }

  /** A cluster is as wide as its characters that have a width, the wide ones counted twice; with an emoji style or
      a keycap in it, it takes two columns at least. */
  lemma WidthTells(t: Tables, cluster: string)
    ensures var measured := |ShownAt(t, cluster)| + |WideAt(t, cluster)|;
      ClusterWidth(t, cluster) ==
        if measured < 2 && (EMOJI_STYLE in cluster || KEYCAP in cluster) then 2 else measured
  {
    MeasuredIs(t, cluster);
    hide ShownAt, WideAt, Measured;
  }

  /** The ellipsis adds at most one column, even when it joins a cluster ending in a zero-width joiner. */
  lemma EllipsisAddsOne(t: Tables, prefix: string)
    requires Standard(t)
    ensures TotalWidth(t, Clusters(t, prefix + [ELLIPSIS])) <= TotalWidth(t, Clusters(t, prefix)) + 1
    ensures |Clusters(t, prefix + [ELLIPSIS])| ==
      |Clusters(t, prefix)| + if prefix != [] && prefix[|prefix| - 1] == JOINER then 0 else 1
  {
    ScanShape(t, prefix);
    ClustersAfter(t, prefix, ELLIPSIS);
    var cs, cs' := Clusters(t, prefix), Clusters(t, prefix + [ELLIPSIS]);
    assert [ELLIPSIS][..0] == [];
    assert Measured(t, [ELLIPSIS]) == 1;
    if |cs'| == |cs| {
      var last := cs[|cs| - 1];
      assert (last + [ELLIPSIS])[..|last + [ELLIPSIS]| - 1] == last;
      assert cs'[..|cs'| - 1] == cs[..|cs| - 1];
    } else {
      assert cs'[..|cs'| - 1] == cs;
    }
  }

  // ----- truncation -----

  function TerminalWidth(t: Tables, value: string): (w: nat) {
    TotalWidth(t, Clusters(t, Normalize(t, value)))
  }

  // How many clusters the loop keeps, given that `used` columns are taken by the first `k`.
  function Kept(t: Tables, clusters: seq<string>, target: int, k: nat, used: nat): (n: nat)
    requires k <= |clusters|
    ensures k <= n <= |clusters|
    decreases |clusters| - k
  {
    if k == |clusters| || used + ClusterWidth(t, clusters[k]) > target then k
    else Kept(t, clusters, target, k + 1, used + ClusterWidth(t, clusters[k]))
  }

  lemma {:induction false} KeptIsLongest(t: Tables, clusters: seq<string>, target: int, k: nat, used: nat)
    requires k <= |clusters| && used == TotalWidth(t, clusters[..k]) && used <= target
    ensures var n := Kept(t, clusters, target, k, used);
      && TotalWidth(t, clusters[..n]) <= target
      && (n < |clusters| ==> TotalWidth(t, clusters[..n + 1]) > target)
    decreases |clusters| - k
  {
    if k < |clusters| {
      assert clusters[..k + 1][..k] == clusters[..k];
      if used + ClusterWidth(t, clusters[k]) <= target {
        KeptIsLongest(t, clusters, target, k + 1, used + ClusterWidth(t, clusters[k]));
      }
    }
  }

  function Truncate(t: Tables, value: string, width: int): (s: string) {
    var normalized := Normalize(t, value);
    if TerminalWidth(t, normalized) <= width then normalized
    else if width <= 1 then (if width == 1 then [ELLIPSIS] else [])
    else
      var clusters := Clusters(t, normalized);
      Join(clusters[..Kept(t, clusters, width - 1, 0, 0)]) + [ELLIPSIS]
  }

  method KeepClusters(t: Tables, clusters: seq<string>, target: int) returns (result: seq<string>)
    ensures result == clusters[..Kept(t, clusters, target, 0, 0)]
  {
    result := [];
    var used: nat := 0;
    for i := 0 to |clusters|
      invariant result == clusters[..i]
      invariant Kept(t, clusters, target, 0, 0) == Kept(t, clusters, target, i, used)
    {
      var clusterWidth := ClusterWidth(t, clusters[i]);
      if used + clusterWidth > target { break; }
      result := result + [clusters[i]];
      used := used + clusterWidth;
    }
  }

  method TruncateTerminalText(t: Tables, value: string, width: int) returns (s: string)
    ensures s == Truncate(t, value, width)
  {
    hide Normalize, Clusters, Join, TotalWidth, Kept;
    var normalized := NormalizeText(t, value);
    if TerminalWidth(t, normalized) <= width { return normalized; }
    if width <= 1 { return if width == 1 then [ELLIPSIS] else []; }
    var clusters := TerminalClusters(t, normalized);
    var result := KeepClusters(t, clusters, width - 1);
    s := Join(result) + [ELLIPSIS];
  }

  lemma NormalTwice(t: Tables, value: string)
    requires Standard(t)
    ensures Normalize(t, Normalize(t, value)) == Normalize(t, value)
  {
    NormalizeCleans(t, value);
    CleanIsNormal(t, Normalize(t, value));
  }

  lemma {:induction false} JoinPrefix(clusters: seq<string>, k: nat)
    requires k <= |clusters|
    ensures Join(clusters[..k]) <= Join(clusters)
    decreases |clusters|
  {
    if k < |clusters| {
      assert clusters[..|clusters| - 1][..k] == clusters[..k];
      JoinPrefix(clusters[..|clusters| - 1], k);
    } else {
      assert clusters[..k] == clusters;
    }
  }

  // Whole clusters of clean text with the ellipsis behind them.
  lemma PrefixWithEllipsis(t: Tables, text: string, k: nat)
    requires Standard(t) && Clean(t, text) && k <= |Clusters(t, text)|
    ensures var s := Join(Clusters(t, text)[..k]) + [ELLIPSIS];
      Clean(t, s) && TerminalWidth(t, s) <= TotalWidth(t, Clusters(t, text)[..k]) + 1
  {
    hide Clusters, Join, TotalWidth, Normalize;
    var prefix := Join(Clusters(t, text)[..k]);
    ClustersJoin(t, text);
    JoinPrefix(Clusters(t, text), k);
    PrefixClusters(t, text, k);
    EllipsisAddsOne(t, prefix);
    CleanIsNormal(t, prefix + [ELLIPSIS]);
  }

  lemma NothingIsNarrow(t: Tables)
    ensures TotalWidth(t, []) == 0
  {
  }

  // The text that does not fit: what is kept and how wide the result is.
  lemma TruncatedShape(t: Tables, value: string, width: int) returns (k: nat)
    requires Standard(t) && width >= 2 && TerminalWidth(t, value) > width
    ensures var clusters, s := Clusters(t, Normalize(t, value)), Truncate(t, value, width);
      && k < |clusters|
      && s == Join(clusters[..k]) + [ELLIPSIS]
      && TotalWidth(t, clusters[..k]) <= width - 1 < TotalWidth(t, clusters[..k + 1])
      && Clean(t, s) && TerminalWidth(t, s) <= width
  {
    hide Clusters, Join, TotalWidth, Normalize, Kept, Clean, Standard;
    NormalTwice(t, value);
    NormalizeCleans(t, value);
    var clusters := Clusters(t, Normalize(t, value));
    k := Kept(t, clusters, width - 1, 0, 0);
    NothingIsNarrow(t);
    assert clusters[..0] == [];
    KeptIsLongest(t, clusters, width - 1, 0, 0);
    assert clusters[..|clusters|] == clusters;
    PrefixWithEllipsis(t, Normalize(t, value), k);
  }

  /** Truncated text is never wider than any requested width of at least zero. */
  lemma NeverTooWide(t: Tables, value: string, width: nat)
    requires Standard(t)
    ensures TerminalWidth(t, Truncate(t, value, width)) <= width
  {
    NormalTwice(t, value);
    if TerminalWidth(t, value) > width {
      if width >= 2 {
        var _ := TruncatedShape(t, value, width);
      } else if width == 1 {
        CleanIsNormal(t, [ELLIPSIS]);
        assert [] + [ELLIPSIS] == [ELLIPSIS];
        EllipsisAddsOne(t, []);
      }
    }
  }

  /** Text is left alone exactly when it fits; otherwise the longest run of whole clusters that
      leaves room for the ellipsis is kept. */
  lemma KeepsLongestPrefix(t: Tables, value: string, width: nat)
    requires Standard(t)
    ensures Truncate(t, value, width) == Normalize(t, value) <==> TerminalWidth(t, value) <= width
    ensures TerminalWidth(t, value) > width >= 2 ==>
      var clusters := Clusters(t, Normalize(t, value));
      exists k: nat ::
        && k < |clusters|
        && Truncate(t, value, width) == Join(clusters[..k]) + [ELLIPSIS]
        && (forall j :: 0 <= j <= |clusters| ==> (TotalWidth(t, clusters[..j]) <= width - 1 ==> j <= k))
        && TotalWidth(t, clusters[..k]) <= width - 1
    ensures TerminalWidth(t, value) > width && width <= 1 ==>
      Truncate(t, value, width) == if width == 1 then [ELLIPSIS] else []
  {
    hide Clusters, Join, TotalWidth, Normalize, Standard;
    NormalTwice(t, value);
    NeverTooWide(t, value, width);
    if TerminalWidth(t, value) > width >= 2 {
      var clusters := Clusters(t, Normalize(t, value));
      var k := TruncatedShape(t, value, width);
      forall j | 0 <= j <= |clusters| && TotalWidth(t, clusters[..j]) <= width - 1 ensures j <= k {
        if j > k { WidthGrows(t, clusters, k + 1, j); }
      }
    }
  }

  /** What does not fit a width of zero or less leaves nothing, and a text without any width fits zero. */
  lemma NothingIsLeft(t: Tables, value: string, width: int)
    requires Standard(t) && width <= 0
    ensures Truncate(t, value, width) == if width == 0 && TerminalWidth(t, value) == 0 then Normalize(t, value) else []
  {
    NormalTwice(t, value);
    hide Clusters, TotalWidth, Normalize, Standard;
  }

  /** Truncating again changes nothing, whatever the width, negative ones included. */
  lemma TruncateTwice(t: Tables, value: string, width: int)
    requires Standard(t)
    ensures Truncate(t, Truncate(t, value, width), width) == Truncate(t, value, width)
  {
    NormalTwice(t, value);
    if TerminalWidth(t, value) > width {
      if width >= 2 {
        var _ := TruncatedShape(t, value, width);
        CleanIsNormal(t, Truncate(t, value, width));
      } else {
        CleanIsNormal(t, [ELLIPSIS]);
      }
    }
  }
}
