/** The progress colour and the gradient definition built from it
    (src/svgProgress.tsx:28, 61, 97-114). */
module Gradient {
  import opened Optional

  /** One `[position, colour]` pair of a stop list; the position is a percentage. */
  datatype GradientStop = GradientStop(pos: real, color: string)

  /** The progress colour: a literal colour string or an ordered stop list. */
  datatype ProgressColor = Solid(color: string) | Gradient(stops: seq<GradientStop>)

  /** An attribute value written `${value}%`. */
  datatype Pct = Pct(value: real)

  /** The attribute names `x${i}` and `y${i}`. */
  datatype GradKey = XKey(i: nat) | YKey(i: nat)

  /** A `Stop` element: offset, stop colour and stop opacity. */
  datatype StopEntry = StopEntry(offset: Pct, stopColor: string, stopOpacity: string)

  /** A `LinearGradient` element inside `Defs`. */
  datatype LinearGradient = LinearGradient(id: string, attrs: map<GradKey, Pct>, stops: seq<StopEntry>)

  /** What a stroke is painted with: a literal colour or a reference `url(#id)`. */
  datatype Paint = Literal(color: string) | UrlRef(id: string)

  const GradientId: string := "progressGrad"

  /** The attribute names for a list of n stops: x1..xn and y1..yn. */
  function AttrKeys(n: nat): set<GradKey> {
    if n == 0 then {} else AttrKeys(n - 1) + {XKey(n), YKey(n)}
  }

  /** The key set holds exactly x1..xn and y1..yn. */
  lemma {:induction false} AttrKeysMember(n: nat, k: GradKey)
    ensures k in AttrKeys(n) <==> 1 <= k.i <= n
  {
    if n > 0 {
      AttrKeysMember(n - 1, k);
    }
  }

  /** The gradient attributes, declaratively: x_i is the i-th stop's position,
      y_i is 0, for i = 1..n, and there are no other keys. */
  function GradientAttrs(stops: seq<GradientStop>): (attrs: map<GradKey, Pct>)
    ensures forall k :: k in attrs <==> 1 <= k.i <= |stops|
    ensures forall i :: 1 <= i <= |stops| ==>
      XKey(i) in attrs && attrs[XKey(i)] == Pct(stops[i - 1].pos)
    ensures forall i :: 1 <= i <= |stops| ==> YKey(i) in attrs && attrs[YKey(i)] == Pct(0.0)
  {
    forall k {
      AttrKeysMember(|stops|, k);
    }
    map k | k in AttrKeys(|stops|) :: if k.XKey? then Pct(stops[k.i - 1].pos) else Pct(0.0)
  }

  /** There are exactly 2n attributes: n x-keys and n y-keys. */
  lemma {:induction false} AttrKeysCount(n: nat)
    ensures |AttrKeys(n)| == 2 * n
  {
    if n > 0 {
      var prev := AttrKeys(n - 1);
      AttrKeysCount(n - 1);
      AttrKeysMember(n - 1, XKey(n));
      AttrKeysMember(n - 1, YKey(n));
      var withX := prev + {XKey(n)};
      assert |withX| == |prev| + 1;
      assert YKey(n) !in withX;
      assert AttrKeys(n) == withX + {YKey(n)};
    }
  }

  lemma GradientAttrsSize(stops: seq<GradientStop>)
    ensures |GradientAttrs(stops)| == 2 * |stops|
  {
    AttrKeysCount(|stops|);
    assert GradientAttrs(stops).Keys == AttrKeys(|stops|);
  }

  /** Appending one stop adds exactly its x- and y-attributes: one step of the `reduce`. */
  lemma GradientAttrsSnoc(stops: seq<GradientStop>, cur: GradientStop)
    ensures GradientAttrs(stops + [cur]) ==
      GradientAttrs(stops)[XKey(|stops| + 1) := Pct(cur.pos)][YKey(|stops| + 1) := Pct(0.0)]
  {
  }

  /** The `reduce` of renderDefs: fill a `Record` accumulator, one stop at a time. */
  method LinearGradientProps(stops: seq<GradientStop>) returns (acc: map<GradKey, Pct>)
    ensures acc == GradientAttrs(stops)
  {
    acc := map[];
    var index := 0;
    while index < |stops|
      invariant 0 <= index <= |stops|
      invariant acc == GradientAttrs(stops[..index])
    {
      var cur := stops[index];
      GradientAttrsSnoc(stops[..index], cur);
      assert stops[..index + 1] == stops[..index] + [cur];
      acc := acc[XKey(index + 1) := Pct(cur.pos)];
      acc := acc[YKey(index + 1) := Pct(0.0)];
      index := index + 1;
    }
    assert stops[..index] == stops;
  }

  /** The `Stop` elements: one per pair, in input order, each fully opaque. */
  function StopEntries(stops: seq<GradientStop>): (r: seq<StopEntry>)
    ensures |r| == |stops|
    ensures forall i :: 0 <= i < |stops| ==>
      r[i] == StopEntry(Pct(stops[i].pos), stops[i].color, "1")
  {
    seq(|stops|, i requires 0 <= i < |stops| => StopEntry(Pct(stops[i].pos), stops[i].color, "1"))
  }

  /** Stop entries are built element-wise: no sorting, no merging of duplicates. */
  lemma StopEntriesConcat(s: seq<GradientStop>, t: seq<GradientStop>)
    ensures StopEntries(s + t) == StopEntries(s) + StopEntries(t)
  {
  }

  /** The i-th x-attribute and the i-th stop's offset are the same value. */
  lemma AttrsMatchStops(stops: seq<GradientStop>, i: nat)
    requires 1 <= i <= |stops|
    ensures XKey(i) in GradientAttrs(stops)
    ensures GradientAttrs(stops)[XKey(i)] == StopEntries(stops)[i - 1].offset
  {
  }

  /** renderDefs: nothing for a solid colour; for a stop list (even an empty one)
      the gradient `progressGrad` with its attributes and its stops. */
  function Defs(color: ProgressColor): (r: Option<LinearGradient>)
    ensures r.Some? <==> color.Gradient?
    ensures r.Some? ==> r.value.id == GradientId
    ensures color.Gradient? ==>
      r == Some(LinearGradient(GradientId, GradientAttrs(color.stops), StopEntries(color.stops)))
    ensures r.Some? ==> |r.value.stops| == |color.stops|
    ensures r.Some? ==> forall k :: k in r.value.attrs <==> 1 <= k.i <= |color.stops|
  {
    match color
    case Solid(_) => None
    case Gradient(stops) => Some(LinearGradient(GradientId, GradientAttrs(stops), StopEntries(stops)))
  }

  /** The progress arc's stroke: the literal colour, or a reference to the gradient. */
  function ProgressStroke(color: ProgressColor): (p: Paint)
    ensures color.Solid? ==> p == Literal(color.color)
    ensures p.UrlRef? <==> Defs(color).Some?
    ensures p.UrlRef? ==> p.id == Defs(color).value.id
  {
    if color.Gradient? then UrlRef(GradientId) else Literal(color.color)
  }

  /** The stop list [[0, "#fff"], [50, "#000"], [100, "#f00"]]. */
  lemma ThreeStopGradient()
    ensures var d := Defs(Gradient([GradientStop(0.0, "#fff"), GradientStop(50.0, "#000"), GradientStop(100.0, "#f00")]));
      && d.Some?
      && d.value.attrs == map[XKey(1) := Pct(0.0), YKey(1) := Pct(0.0),
                              XKey(2) := Pct(50.0), YKey(2) := Pct(0.0),
                              XKey(3) := Pct(100.0), YKey(3) := Pct(0.0)]
      && d.value.stops == [StopEntry(Pct(0.0), "#fff", "1"), StopEntry(Pct(50.0), "#000", "1"),
                           StopEntry(Pct(100.0), "#f00", "1")]
  {
  }
}
