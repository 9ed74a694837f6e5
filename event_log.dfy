/**
 * The older event log's plot bookkeeping: which pid an event belongs to, the
 * palette, the colour each pid is drawn in, the y range and the image size.
 * The drawing itself is not modelled; colours are palette positions.
 */
module EventLog {
  import opened Wrappers
  import Tracer

  /** `pid_t`, a signed 32-bit integer. */
  type PidT = x: int | Tracer.I32_MIN <= x <= Tracer.I32_MAX

  datatype RunType = Tests | Doctests | Benchmarks | Examples | Lib | Bins | AllTargets

  datatype TestBinary = TestBinary(
    path: string,
    ty: Option<RunType>,
    cargoDir: Option<string>,
    pkgName: Option<string>,
    pkgVersion: Option<string>,
    pkgAuthors: Option<seq<string>>,
    shouldPanic: bool)

  datatype TraceEvent = TraceEvent(
    pid: Option<PidT>,
    child: Option<PidT>,
    signal: Option<string>,
    addr: Option<int>,
    returnVal: Option<int>,
    description: string)

  datatype Event = ConfigLaunch(name: string) | BinaryLaunch(binary: TestBinary) | Trace(trace: TraceEvent)

  /** The pid an event is plotted against: only trace events carry one. */
  function GetPid(e: Event): (r: Option<PidT>)
    ensures (e.ConfigLaunch? || e.BinaryLaunch?) ==> r.None?
    ensures e.Trace? ==> r == e.trace.pid
  {
    if e.Trace? then e.trace.pid else None
  }

  /** The distinct pids of the log. */
  function PidSet(events: seq<Event>): set<PidT> {
    set e | e in events && GetPid(e).Some? :: GetPid(e).value
  }

  /** The pid set holds exactly the pids some event of the log carries. */
  lemma PidSetMembers(events: seq<Event>)
    ensures forall i :: 0 <= i < |events| && GetPid(events[i]).Some? ==> GetPid(events[i]).value in PidSet(events)
    ensures forall p :: p in PidSet(events) ==> exists i :: 0 <= i < |events| && GetPid(events[i]) == Some(p)
  {
    forall p | p in PidSet(events) ensures exists i :: 0 <= i < |events| && GetPid(events[i]) == Some(p) {
      var e :| e in events && GetPid(e) == Some(p);
      var i :| 0 <= i < |events| && events[i] == e;
    }
  }

  lemma PidSetSnoc(events: seq<Event>, e: Event)
    ensures PidSet(events + [e]) == PidSet(events) + (if GetPid(e).Some? then {GetPid(e).value} else {})
  {
    var s := events + [e];
    PidSetMembers(s);
    PidSetMembers(events);
    forall p | p in PidSet(s) ensures p in PidSet(events) + (if GetPid(e).Some? then {GetPid(e).value} else {}) {
      var i :| 0 <= i < |s| && GetPid(s[i]) == Some(p);
      if i < |events| {
        assert s[i] == events[i];
      }
    }
    forall p | p in PidSet(events) ensures p in PidSet(s) {
      var i :| 0 <= i < |events| && GetPid(events[i]) == Some(p);
      assert s[i] == events[i];
    }
  }

  /** A palette entry: the `index`-th of `len` evenly spread hues, or black. */
  datatype Colour = Shade(index: nat, len: nat) | Black

  /** `generate_palette`: `len` hues, one per position. */
  method GeneratePalette(len: nat) returns (res: seq<Colour>)
    ensures |res| == len
    ensures forall i :: 0 <= i < len ==> res[i] == Shade(i, len)
  {
    res := [];
    for i := 0 to len
      invariant |res| == i
      invariant forall j :: 0 <= j < i ==> res[j] == Shade(j, len)
    {
      res := res + [Shade(i, len)];
    }
  }

  predicate Distinct<T(==)>(s: seq<T>) {
    forall i, j :: 0 <= i < j < |s| ==> s[i] != s[j]
  }

  datatype Pick = Pick(colour: Colour, colourMap: map<PidT, Colour>, palette: seq<Colour>)

  /**
   * The colour of one trace event of `pid`: the one it already has, else the
   * first remaining palette entry (removed from the palette), else black.
   */
  function PickColour(colourMap: map<PidT, Colour>, palette: seq<Colour>, pid: PidT): (r: Pick)
    ensures pid in colourMap ==> r == Pick(colourMap[pid], colourMap, palette)
    ensures pid !in colourMap && palette != [] ==>
      r == Pick(palette[0], colourMap[pid := palette[0]], palette[1..])
    ensures pid !in colourMap && palette == [] ==> r == Pick(Black, colourMap, palette)
    ensures pid in colourMap || palette != [] ==> pid in r.colourMap && r.colourMap[pid] == r.colour
    ensures forall q :: q in colourMap ==> q in r.colourMap && r.colourMap[q] == colourMap[q]
  {
    if pid in colourMap then
      Pick(colourMap[pid], colourMap, palette)
    else if palette != [] then
      var c := palette[0];
      Pick(c, colourMap[pid := c], palette[1..])
    else
      Pick(Black, colourMap, palette)
  }

  /** The pids of the log in order of first appearance. */
  function FirstSeen(events: seq<Event>): (fs: seq<PidT>)
  {
    if events == [] then []
    else
      var fs := FirstSeen(events[..|events| - 1]);
      var p := GetPid(events[|events| - 1]);
      if p.Some? && p.value !in fs then fs + [p.value] else fs
  }

  /** The first-appearance order lists every pid of the log exactly once. */
  lemma {:induction false} FirstSeenIsPidSet(events: seq<Event>)
    ensures Distinct(FirstSeen(events))
    ensures Elems(FirstSeen(events)) == PidSet(events)
    ensures |FirstSeen(events)| == |PidSet(events)|
  {
    if events != [] {
      var n := |events| - 1;
      FirstSeenIsPidSet(events[..n]);
      assert events == events[..n] + [events[n]];
      PidSetSnoc(events[..n], events[n]);
    }
    DistinctCard(FirstSeen(events));
  }

  /** The elements of a sequence of pids, as a set. */
  function Elems(s: seq<PidT>): set<PidT> {
    set p | p in s
  }

  lemma {:induction false} DistinctCard(s: seq<PidT>)
    requires Distinct(s)
    ensures |Elems(s)| == |s|
  {
    if s != [] {
      var n := |s| - 1;
      assert Distinct(s[..n]);
      DistinctCard(s[..n]);
      assert s == s[..n] + [s[n]];
      assert Elems(s) == Elems(s[..n]) + {s[n]};
      assert forall j :: 0 <= j < n ==> s[..n][j] != s[n];
      assert s[n] !in Elems(s[..n]);
    }
  }

  lemma SubsetCard(a: set<PidT>, b: set<PidT>)
    requires a <= b
    ensures |a| <= |b|
  {
    assert b == a + (b - a);
  }

  /** Everything `save_graph` computes besides the drawing. */
  datatype Layout = Layout(
    colours: seq<Option<Colour>>,
    colourMap: map<PidT, Colour>,
    yMin: int,
    yMax: int,
    width: nat,
    height: nat)

  function Max(a: int, b: int): int {
    if a < b then b else a
  }

  /** The y range after the layout loop has seen `seen`. */
  ghost predicate RangeInv(seen: seq<Event>, yMin: int, yMax: int) {
    (PidSet(seen) == {} ==> yMin == Tracer.I32_MAX)
    && (PidSet(seen) != {} ==> yMin in PidSet(seen))
    && (forall p :: p in PidSet(seen) ==> yMin <= p <= yMax)
    && 0 <= yMax && (yMax == 0 || yMax in PidSet(seen))
  }

  /** The colours handed out after the layout loop has seen `seen`, from the full palette `full`. */
  ghost predicate PaletteInv(seen: seq<Event>, full: seq<Colour>, colourMap: map<PidT, Colour>, palette: seq<Colour>) {
    colourMap.Keys == PidSet(seen)
    && |FirstSeen(seen)| <= |full|
    && palette == full[|FirstSeen(seen)|..]
    && forall k :: 0 <= k < |FirstSeen(seen)| ==>
      FirstSeen(seen)[k] in colourMap && colourMap[FirstSeen(seen)[k]] == full[k]
  }

  /** The lines drawn for the events `seen` are in the colours `colourMap` gives their pids. */
  ghost predicate DrawnInv(seen: seq<Event>, colours: seq<Option<Colour>>, colourMap: map<PidT, Colour>) {
    |colours| == |seen|
    && (forall j :: 0 <= j < |seen| ==> (colours[j].Some? <==> GetPid(seen[j]).Some?))
    && forall j :: 0 <= j < |seen| && GetPid(seen[j]).Some? ==>
      GetPid(seen[j]).value in colourMap && colours[j] == Some(colourMap[GetPid(seen[j]).value])
  }

  /**
   * `save_graph` without the drawing: `colours[i]` is the colour of the line
   * drawn for event `i` (None when none is drawn).
   */
  method SaveGraphLayout(events: seq<Event>) returns (l: Layout)
    ensures |l.colours| == |events|
    ensures forall i :: 0 <= i < |events| ==> (l.colours[i].Some? <==> GetPid(events[i]).Some?)
    ensures forall i :: 0 <= i < |events| && GetPid(events[i]).Some? ==>
      GetPid(events[i]).value in l.colourMap && l.colours[i] == Some(l.colourMap[GetPid(events[i]).value])
    ensures l.colourMap.Keys == PidSet(events)
    ensures forall k :: 0 <= k < |FirstSeen(events)| ==>
      FirstSeen(events)[k] in l.colourMap && l.colourMap[FirstSeen(events)[k]] == Shade(k, |PidSet(events)| + 1)
    ensures forall p :: p in l.colourMap ==> l.colourMap[p] != Black
    ensures PidSet(events) == {} ==> l.yMin == Tracer.I32_MAX
    ensures PidSet(events) != {} ==> l.yMin in PidSet(events)
    ensures forall p :: p in PidSet(events) ==> l.yMin <= p <= l.yMax
    ensures 0 <= l.yMax && (l.yMax == 0 || l.yMax in PidSet(events))
    ensures l.width == |events| * 20 && l.height == Max(|PidSet(events)| * 200, 100)
  {
    var pids := PidSet(events);
    var palette := GeneratePalette(|pids| + 1);
    ghost var full := palette;
    var colourMap: map<PidT, Colour> := map[];
    var yMin: int := Tracer.I32_MAX;
    var yMax: int := 0;
    var colours: seq<Option<Colour>> := [];
    for i := 0 to |events|
      invariant RangeInv(events[..i], yMin, yMax)
      invariant PaletteInv(events[..i], full, colourMap, palette)
      invariant DrawnInv(events[..i], colours, colourMap)
    {
      assert events[..i + 1] == events[..i] + [events[i]];
      RangeStep(events[..i], events[i], yMin, yMax);
      PaletteStep(events, i, full, colourMap, palette);
      ghost var drawn, oldMap := colours, colourMap;
      var p := GetPid(events[i]);
      if p.Some? {
        var pid := p.value;
        var pick := PickColour(colourMap, palette, pid);
        colourMap, palette := pick.colourMap, pick.palette;
        if pid < yMin {
          yMin := pid;
        }
        if pid > yMax {
          yMax := pid;
        }
        colours := colours + [Some(pick.colour)];
      } else {
        colours := colours + [None];
      }
      DrawnStep(events[..i], events[i], drawn, oldMap, colours, colourMap);
    }
    assert events[..|events|] == events;
    LayoutFinal(events, full, colourMap, palette);
    l := Layout(colours, colourMap, yMin, yMax, |events| * 20, Max(|pids| * 200, 100));
  }

  /** Once the loop has seen the whole log, every pid has a hue, none of them black. */
  lemma LayoutFinal(events: seq<Event>, full: seq<Colour>, colourMap: map<PidT, Colour>, palette: seq<Colour>)
    requires |full| == |PidSet(events)| + 1
    requires forall i :: 0 <= i < |full| ==> full[i] == Shade(i, |full|)
    requires PaletteInv(events, full, colourMap, palette)
    ensures forall k :: 0 <= k < |FirstSeen(events)| ==>
      FirstSeen(events)[k] in colourMap && colourMap[FirstSeen(events)[k]] == Shade(k, |PidSet(events)| + 1)
    ensures forall p :: p in colourMap ==> colourMap[p] != Black
  {
    FirstSeenIsPidSet(events);
    forall p | p in colourMap ensures colourMap[p] != Black {
      assert p in Elems(FirstSeen(events));
      var k :| 0 <= k < |FirstSeen(events)| && FirstSeen(events)[k] == p;
    }
  }

  lemma RangeStep(seen: seq<Event>, e: Event, yMin: int, yMax: int)
    requires RangeInv(seen, yMin, yMax)
    ensures GetPid(e).None? ==> RangeInv(seen + [e], yMin, yMax)
    ensures GetPid(e).Some? ==>
      var pid := GetPid(e).value;
      RangeInv(seen + [e], if pid < yMin then pid else yMin, if pid > yMax then pid else yMax)
  {
    PidSetSnoc(seen, e);
  }

  lemma PaletteStep(events: seq<Event>, i: nat, full: seq<Colour>, colourMap: map<PidT, Colour>, palette: seq<Colour>)
    requires i < |events|
    requires |full| == |PidSet(events)| + 1
    requires PaletteInv(events[..i], full, colourMap, palette)
    ensures GetPid(events[i]).None? ==> PaletteInv(events[..i + 1], full, colourMap, palette)
    ensures GetPid(events[i]).Some? ==>
      var pick := PickColour(colourMap, palette, GetPid(events[i]).value);
      (GetPid(events[i]).value in colourMap || palette != [])
      && PaletteInv(events[..i + 1], full, pick.colourMap, pick.palette)
  {
    LayoutStep(events, i, full, colourMap);
    var seen := events[..i + 1];
    var p := GetPid(events[i]);
    if p.Some? && p.value !in colourMap {
      var n := |FirstSeen(events[..i])|;
      assert palette != [] && palette[0] == full[n];
      var pick := PickColour(colourMap, palette, p.value);
      assert pick.palette == full[n + 1..];
      forall k | 0 <= k < |FirstSeen(seen)|
        ensures FirstSeen(seen)[k] in pick.colourMap && pick.colourMap[FirstSeen(seen)[k]] == full[k]
      {
        if k < n {
          assert FirstSeen(seen)[k] == FirstSeen(events[..i])[k];
        }
      }
    }
  }

  lemma DrawnStep(seen: seq<Event>, e: Event, colours: seq<Option<Colour>>, colourMap: map<PidT, Colour>,
                  colours': seq<Option<Colour>>, colourMap': map<PidT, Colour>)
    requires DrawnInv(seen, colours, colourMap)
    requires forall q :: q in colourMap ==> q in colourMap' && colourMap'[q] == colourMap[q]
    requires |colours'| == |colours| + 1 && colours'[..|colours|] == colours
    requires GetPid(e).None? ==> colours'[|colours|] == None
    requires GetPid(e).Some? ==>
      GetPid(e).value in colourMap' && colours'[|colours|] == Some(colourMap'[GetPid(e).value])
    ensures DrawnInv(seen + [e], colours', colourMap')
  {
    var s := seen + [e];
    forall j | 0 <= j < |s| && GetPid(s[j]).Some?
      ensures GetPid(s[j]).value in colourMap' && colours'[j] == Some(colourMap'[GetPid(s[j]).value])
    {
      if j < |seen| {
        assert s[j] == seen[j] && colours'[j] == colours[j];
      }
    }
    forall j | 0 <= j < |s| ensures colours'[j].Some? <==> GetPid(s[j]).Some? {
      if j < |seen| {
        assert s[j] == seen[j] && colours'[j] == colours[j];
      }
    }
  }

  /** What one event does to the prefix of the log that the layout loop has seen. */
  lemma LayoutStep(events: seq<Event>, i: nat, full: seq<Colour>, colourMap: map<PidT, Colour>)
    requires i < |events|
    requires |full| == |PidSet(events)| + 1
    requires colourMap.Keys == PidSet(events[..i])
    ensures events[..i + 1] == events[..i] + [events[i]]
    ensures PidSet(events[..i + 1]) == PidSet(events[..i]) + (if GetPid(events[i]).Some? then {GetPid(events[i]).value} else {})
    ensures GetPid(events[i]).Some? && GetPid(events[i]).value !in colourMap ==>
      FirstSeen(events[..i + 1]) == FirstSeen(events[..i]) + [GetPid(events[i]).value]
      && |FirstSeen(events[..i + 1])| < |full|
    ensures !(GetPid(events[i]).Some? && GetPid(events[i]).value !in colourMap) ==>
      FirstSeen(events[..i + 1]) == FirstSeen(events[..i])
  {
    assert events[..i + 1] == events[..i] + [events[i]];
    PidSetSnoc(events[..i], events[i]);
    FirstSeenIsPidSet(events[..i]);
    FirstSeenIsPidSet(events[..i + 1]);
    assert events[..i + 1][..i] == events[..i];
    PrefixPidSet(events, i + 1);
    SubsetCard(PidSet(events[..i + 1]), PidSet(events));
  }

  lemma PrefixPidSet(events: seq<Event>, n: nat)
    requires n <= |events|
    ensures PidSet(events[..n]) <= PidSet(events)
  {
    PidSetMembers(events[..n]);
    PidSetMembers(events);
    forall p | p in PidSet(events[..n]) ensures p in PidSet(events) {
      var i :| 0 <= i < n && GetPid(events[..n][i]) == Some(p);
      assert events[..n][i] == events[i];
    }
  }
}
