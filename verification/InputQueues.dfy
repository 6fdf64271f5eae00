/**
 The queues that feed a model running at a fraction of the rate of its inputs
 (selfdrive/modeld/modeld.py, `InputQueues`). A queue is its time axis, of one feature per step or of
 n_channels columns per frame; dtypes are left out.
 */
module ModelInputs {
  import opened Sums

  /** What the name of an input contains: 'img', 'pulse', or neither. */
  datatype Kind = Img | Pulse | Plain

  datatype Name = Name(kind: Kind, id: nat)

  /** The new columns push out as many old ones. */
  function Enqueued(q: seq<real>, x: seq<real>): seq<real>
    requires |x| <= |q|
  {
    q[|x|..] + x
  }

  /** The length of a queue for an input of the given length. */
  function QueueLength(kind: Kind, length: nat, r: nat, frames: nat): nat
    requires frames > 0
  {
    if r == 1 then length
    else if kind == Img then Multiple(r + (frames - 1), Columns(length, frames))
    else r * length
  }

  function Multiple(n: nat, length: nat): nat {
    n * length
  }

  /** The columns of one of several frames. */
  function Columns(length: nat, frames: nat): (columns: nat)
    requires frames > 0
    ensures columns <= length
  {
    PartOfWhole(length, frames);
    length / frames
  }

  /** Every r-th entry from the newest back, in time order; `back` counts from the end. */
  function Taken(q: seq<real>, back: nat, r: nat): seq<real>
    requires r > 0 && back > 0
    decreases |q| - back
  {
    if back >= |q| then [] else Taken(q, back + r, r) + [q[|q| - back]]
  }

  /** The maximum of each group of r. */
  function Maxima(q: seq<real>, r: nat, groups: nat): seq<real>
    requires r > 0 && groups * r <= |q|
  {
    if groups == 0 then []
    else
      GroupEnd(groups, r);
      Maxima(q, r, groups - 1) + [MaxOf(q[(groups - 1) * r..groups * r])]
  }

  lemma GroupEnd(groups: nat, r: nat)
    requires groups > 0
    ensures (groups - 1) * r + r == groups * r
    ensures (groups - 1) * r >= 0
  {
  }

  /** Where slice j of several starts, evenly spread over the span and rounded down. */
  function SliceStart(j: nat, span: nat, frames: nat): (start: nat)
    requires j < frames
    ensures start <= span
  {
    if frames == 1 then 0
    else
      StartFits(j, span, frames - 1);
      j * span / (frames - 1)
  }

  lemma StartFits(j: nat, span: nat, d: nat)
    requires j <= d && d > 0
    ensures 0 <= j * span / d <= span
  {
    var q := j * span / d;
    PartOfWhole(j * span, d);
    Groups(j, d, span);
    assert d * (span + 1) == d * span + d;
    if q > span {
      Groups2(span + 1, q, d);
      assert false;
    }
  }

  /** The first slices of `columns` columns each. */
  function Stacked(q: seq<real>, columns: nat, frames: nat, upTo: nat): seq<real>
    requires columns <= |q| && upTo <= frames
  {
    if upTo == 0 then []
    else
      var start := SliceStart(upTo - 1, |q| - columns, frames);
      Stacked(q, columns, frames, upTo - 1) + q[start..start + columns]
  }

  function Viewed(kind: Kind, q: seq<real>, r: nat, frames: nat): seq<real>
    requires r > 0 && frames > 0
  {
    match kind
    case Img => Stacked(q, Columns(|q|, r + (frames - 1)), frames, frames)
    case Pulse =>
      PartOfWhole(|q|, r);
      Maxima(q, r, |q| / r)
    case Plain => Taken(q, 1, r)
  }

  lemma PartOfWhole(n: nat, r: nat)
    requires r > 0
    ensures 0 <= n / r <= n && n / r * r <= n
  {
    Bounded(n / r, r, n % r, n);
  }

  lemma Groups2(q: int, p: int, r: int)
    requires q <= p && r > 0
    ensures r * q <= r * p
  {
  }

  lemma Bounded(q: int, r: int, rest: int, n: int)
    requires r > 0 && 0 <= rest < r && n >= 0 && n == r * q + rest
    ensures 0 <= q <= n && q * r <= n
  {
    if q < 0 {
      Groups2(q, -1, r);
      assert false;
    }
    assert q <= r * q;
  }

  lemma Groups(g: nat, groups: nat, r: nat)
    requires g <= groups
    ensures g * r <= groups * r
  {
  }

  class InputQueues {
    const modelFps: nat
    const envFps: nat
    const nFramesInput: nat
    var shapes: map<Name, nat>
    var q: map<Name, seq<real>>

    ghost predicate Valid()
      reads this
    {
      modelFps > 0 && envFps >= modelFps && envFps % modelFps == 0 && nFramesInput > 0
    }

    function Ratio(): (r: nat)
      requires modelFps > 0 && envFps >= modelFps && envFps % modelFps == 0
      ensures r > 0 && envFps == modelFps * r
    {
      RatioIsOne(modelFps, envFps);
      envFps / modelFps
    }

    constructor (modelFps: nat, envFps: nat, nFramesInput: nat)
      requires modelFps > 0 && envFps >= modelFps && envFps % modelFps == 0 && nFramesInput > 0
      ensures Valid() && this.modelFps == modelFps && this.envFps == envFps && this.nFramesInput == nFramesInput
      ensures shapes == map[] && q == map[]
    {
      this.modelFps, this.envFps, this.nFramesInput := modelFps, envFps, nFramesInput;
      shapes, q := map[], map[];
    }

    method UpdateShapes(inputShapes: map<Name, nat>)
      requires Valid()
      modifies this`shapes
      ensures Valid()
      ensures shapes ==
        old(shapes) + map k | k in inputShapes :: QueueLength(k.kind, inputShapes[k], Ratio(), nFramesInput)
    {
      hide QueueLength;
      var r := Ratio();
      shapes := shapes + map k | k in inputShapes :: QueueLength(k.kind, inputShapes[k], r, nFramesInput);
    }

    method Reset()
      requires Valid()
      modifies this`q
      ensures Valid()
      ensures q == map k | k in shapes :: seq(shapes[k], _ => 0.0)
    {
      q := map k | k in shapes :: seq(shapes[k], _ => 0.0);
    }

    method Enqueue(inputs: map<Name, seq<real>>)
      requires Valid() && forall k :: k in inputs ==> k in q && 0 < |inputs[k]| <= |q[k]|
      modifies this`q
      ensures Valid()
      ensures q.Keys == old(q).Keys
      ensures forall k :: k in q ==> q[k] == if k in inputs then Enqueued(old(q)[k], inputs[k]) else old(q)[k]
    {
      var todo := inputs.Keys;
      while todo != {}
        invariant todo <= inputs.Keys && q.Keys == old(q).Keys
        invariant forall k :: k in q ==>
          q[k] == if k in inputs && k !in todo then Enqueued(old(q)[k], inputs[k]) else old(q)[k]
        decreases |todo|
      {
        var k :| k in todo;
        var sz := |inputs[k]|;
        q := q[k := q[k][sz..] + inputs[k]];
        todo := todo - {k};
      }
    }

    /** What the model gets for one input, once the queues have been reset to the shapes in force. */
    method Get(k: Name) returns (out: seq<real>)
      requires Valid() && k in q && k in shapes && |q[k]| == shapes[k]
      requires k.kind == Pulse ==> |q[k]| % Ratio() == 0
      ensures out == if envFps == modelFps then q[k] else Viewed(k.kind, q[k], Ratio(), nFramesInput)
    {
      hide Maxima, Taken, Stacked;
      var r := Ratio();
      RatioIsOne(modelFps, envFps);
      if envFps == modelFps {
        return q[k];
      }
      if k.kind == Img {
        out := Stack(q[k], Columns(|q[k]|, r + (nFramesInput - 1)), nFramesInput);
      } else if k.kind == Pulse {
        out := MaximaOf(q[k], r);
      } else {
        out := EveryRth(q[k], r);
      }
    }
  }

  method Stack(queue: seq<real>, columns: nat, frames: nat) returns (out: seq<real>)
    requires columns <= |queue|
    ensures out == Stacked(queue, columns, frames, frames)
  {
    out := [];
    for j := 0 to frames
      invariant out == Stacked(queue, columns, frames, j)
    {
      var start := SliceStart(j, |queue| - columns, frames);
      out := out + queue[start..start + columns];
    }
  }

  method MaximaOf(queue: seq<real>, r: nat) returns (out: seq<real>)
    requires r > 0
    ensures |queue| / r * r <= |queue| && out == Maxima(queue, r, |queue| / r)
  {
    PartOfWhole(|queue|, r);
    out := [];
    var groups := |queue| / r;
    for g := 0 to groups
      invariant g * r <= |queue| && out == Maxima(queue, r, g)
    {
      GroupEnd(g + 1, r);
      Groups(g + 1, groups, r);
      out := out + [MaxOf(queue[g * r..(g + 1) * r])];
    }
  }

  method EveryRth(queue: seq<real>, r: nat) returns (out: seq<real>)
    requires r > 0
    ensures out == Taken(queue, 1, r)
  {
    var back := 1;
    out := [];
    while back < |queue|
      invariant back > 0
      invariant Taken(queue, 1, r) == Taken(queue, back, r) + out
    {
      out := [queue[|queue| - back]] + out;
      back := back + r;
    }
  }

  lemma RatioIsOne(m: nat, e: nat)
    requires m > 0 && e >= m && e % m == 0
    ensures e / m >= 1 && (e / m == 1 <==> e == m)
    ensures e == m * (e / m)
  {
  }

  // ---------- the queue against the plain history ----------

  /** A queue of n after the given columns, starting from zeros. */
  function After(n: nat, xs: seq<real>): seq<real> {
    if xs == [] then seq(n, _ => 0.0)
    else Shifted(After(n, xs[..|xs| - 1]), xs[|xs| - 1])
  }

  function Shifted(q: seq<real>, x: real): seq<real> {
    if q == [] then [] else q[1..] + [x]
  }

  /** The value that entered d steps ago, zero before the first. */
  function Ago(xs: seq<real>, d: nat): real {
    if d < |xs| then xs[|xs| - 1 - d] else 0.0
  }

  lemma {:induction false} QueueHoldsTheLast(n: nat, xs: seq<real>, d: nat)
    requires d < n
    ensures |After(n, xs)| == n && After(n, xs)[n - 1 - d] == Ago(xs, d)
  {
    if xs != [] {
      QueueHoldsTheLast(n, xs[..|xs| - 1], if d > 0 then d - 1 else 0);
    }
  }

  lemma PushOneMore(q: seq<real>, x: seq<real>)
    requires x != [] && |x| <= |q|
    ensures var k := |x| - 1; Shifted(Enqueued(q, x[..k]), x[k]) == Enqueued(q, x)
  {
    var k := |x| - 1;
    assert q[k..][1..] == q[k + 1..];
    assert (q[k..] + x[..k])[1..] == q[k + 1..] + x[..k];
    assert x == x[..k] + [x[k]];
  }

  /** Enqueueing several columns at once is enqueueing them one by one. */
  lemma {:induction false} EnqueueExtendsHistory(n: nat, xs: seq<real>, x: seq<real>)
    requires |x| <= n
    ensures |After(n, xs)| == n && Enqueued(After(n, xs), x) == After(n, xs + x)
  {
    KeepsLength(n, xs);
    if x == [] {
      assert xs + x == xs;
    } else {
      var k := |x| - 1;
      EnqueueExtendsHistory(n, xs, x[..k]);
      PushOneMore(After(n, xs), x);
      assert (xs + x)[..|xs + x| - 1] == xs + x[..k];
    }
  }

  lemma {:induction false} KeepsLength(n: nat, xs: seq<real>)
    ensures |After(n, xs)| == n
  {
    if xs != [] {
      KeepsLength(n, xs[..|xs| - 1]);
    }
  }

  // ---------- every r-th entry ----------

  lemma {:induction false} TakenAt(q: seq<real>, back: nat, r: nat, m: nat, j: nat, p: nat)
    requires r > 1 && 0 < back && |q| - back == m * r - 1 && j < m && p == (m - 1 - j) * r
    ensures |Taken(q, back, r)| == m
    ensures back + p <= |q| && Taken(q, back, r)[j] == q[|q| - (back + p)]
    decreases m
  {
    GroupEnd(m, r);
    if m == 1 {
      assert Taken(q, back + r, r) == [];
    } else if j == m - 1 {
      Groups(1, m, r);
      GroupEnd(m - 1, r);
      TakenAt(q, back + r, r, m - 1, m - 2, 0);
    } else {
      Groups(1, m, r);
      GroupEnd(m - 1 - j, r);
      TakenAt(q, back + r, r, m - 1, j, p - r);
    }
  }

  /** Running r times faster than the model, the plain view is exactly the entries that came in 0, r,
      2r, ... steps ago, oldest first. */
  lemma PlainViewIsEveryRth(xs: seq<real>, r: nat, frames: nat, m: nat, j: nat)
    requires frames > 0 && r > 1 && j < m
    ensures var view := Viewed(Plain, After(r * m, xs), r, frames);
            |view| == m && view[j] == Ago(xs, (m - 1 - j) * r)
  {
    hide After, Ago, Taken;
    var q := After(r * m, xs);
    Groups(1, m, r);
    QueueHoldsTheLast(r * m, xs, 0);
    var p := (m - 1 - j) * r;
    Groups(m - 1 - j, m - 1, r);
    GroupEnd(m, r);
    TakenAt(q, 1, r, m, j, p);
    QueueHoldsTheLast(r * m, xs, p);
  }

  // ---------- pulses ----------

  lemma {:induction false} MaximaAt(q: seq<real>, r: nat, groups: nat, g: nat, from: nat)
    requires r > 0 && groups * r <= |q| && g < groups && from == g * r
    ensures |Maxima(q, r, groups)| == groups
    ensures from + r <= |q| && Maxima(q, r, groups)[g] == MaxOf(q[from..from + r])
    decreases groups
  {
    GroupEnd(groups, r);
    if groups == 1 {
      assert Maxima(q, r, 0) == [];
    } else if g == groups - 1 {
      GroupEnd(groups - 1, r);
      MaximaAt(q, r, groups - 1, groups - 2, (groups - 2) * r);
    } else {
      MaximaAt(q, r, groups - 1, g, from);
    }
  }

  predicate IsMax(m: real, xs: seq<real>) {
    m in xs && forall k :: 0 <= k < |xs| ==> xs[k] <= m
  }

  lemma {:induction false} MaxOfIsMax(xs: seq<real>)
    requires xs != []
    ensures IsMax(MaxOf(xs), xs)
  {
    if |xs| > 1 {
      MaxOfIsMax(xs[..|xs| - 1]);
    }
  }

  /** The values that came in from `newest` to `newest + r - 1` steps ago, oldest first. */
  function Window(xs: seq<real>, newest: nat, r: nat): seq<real> {
    seq(r, k requires 0 <= k < r => Ago(xs, newest + r - 1 - k))
  }

  /** The pulse view is the maximum of each window of r steps; the windows follow one another, the
      newest last. */
  lemma PulseViewIsWindowMaxima(xs: seq<real>, r: nat, frames: nat, m: nat, g: nat, newest: nat)
    requires frames > 0 && r > 0 && g < m && newest == (m - 1 - g) * r
    ensures var view := Viewed(Pulse, After(r * m, xs), r, frames);
            |view| == m && IsMax(view[g], Window(xs, newest, r))
  {
    hide After, Ago, Maxima, MaxOf, IsMax;
    var q := After(r * m, xs);
    Exactly(r, m);
    GroupEnd(m, r);
    QueueHoldsTheLast(r * m, xs, 0);
    var from := g * r;
    MaximaAt(q, r, m, g, from);
    MaxOfIsMax(q[from..from + r]);
    GroupIsWindow(xs, r, m, g, from);
  }

  lemma Exactly(r: nat, m: nat)
    requires r > 0
    ensures r * m / r == m && m * r == r * m
  {
    WindowOf(r * m, r, m);
  }

  lemma GroupIsWindow(xs: seq<real>, r: nat, m: nat, g: nat, from: nat)
    requires r > 0 && g < m && from == g * r && from + r <= |After(r * m, xs)|
    ensures (m - 1 - g) * r >= 0
    ensures After(r * m, xs)[from..from + r] == Window(xs, (m - 1 - g) * r, r)
  {
    hide After, Ago;
    var q := After(r * m, xs);
    var newest := (m - 1 - g) * r;
    Groups(0, m - 1 - g, r);
    Distributes(m, g, r);
    var n := r * m;
    QueueHoldsTheLast(n, xs, 0);
    forall i | from <= i < from + r
      ensures q[i] == Ago(xs, n - 1 - i)
    {
      QueueHoldsTheLast(n, xs, n - 1 - i);
    }
  }

  lemma Distributes(m: int, g: int, r: int)
    ensures (m - 1 - g) * r + r + g * r == r * m
  {
  }

  /** Every step still in the queue falls in exactly one window. */
  lemma OneWindowPerStep(r: nat, m: nat, d: nat, g: nat)
    requires r > 0 && d < r * m && g < m
    ensures (m - 1 - g) * r <= d < (m - 1 - g) * r + r <==> g == m - 1 - d / r
  {
    WindowOf(d, r, m - 1 - g);
  }

  lemma WindowOf(d: int, r: int, w: int)
    requires r > 0
    ensures w * r <= d < w * r + r <==> w == d / r
  {
    var q := d / r;
    assert d == r * q + d % r;
    if w < q {
      Groups2(w + 1, q, r);
      assert r * (w + 1) == w * r + r;
    } else if w > q {
      Groups2(q + 1, w, r);
      assert r * (q + 1) == r * q + r;
    }
  }

  // ---------- frames ----------

  lemma {:induction false} StackedAt(q: seq<real>, columns: nat, frames: nat, upTo: nat, j: nat, k: nat)
    requires columns <= |q| && j < upTo <= frames && k < columns
    ensures |Stacked(q, columns, frames, j)| + k < |Stacked(q, columns, frames, upTo)|
    ensures Stacked(q, columns, frames, upTo)[|Stacked(q, columns, frames, j)| + k]
      == q[SliceStart(j, |q| - columns, frames) + k]
    decreases upTo
  {
    hide SliceStart, Stacked;
    StackedUnfold(q, columns, frames, upTo);
    var start := SliceStart(upTo - 1, |q| - columns, frames);
    var before, slice := Stacked(q, columns, frames, upTo - 1), q[start..start + columns];
    if j < upTo - 1 {
      StackedAt(q, columns, frames, upTo - 1, j, k);
    } else {
      assert (before + slice)[|before| + k] == slice[k];
    }
  }

  lemma StackedUnfold(q: seq<real>, columns: nat, frames: nat, upTo: nat)
    requires columns <= |q| && 0 < upTo <= frames
    ensures var start := SliceStart(upTo - 1, |q| - columns, frames);
            Stacked(q, columns, frames, upTo) == Stacked(q, columns, frames, upTo - 1) + q[start..start + columns]
  {
    hide SliceStart;
  }

  lemma {:induction false} StackedLength(q: seq<real>, columns: nat, frames: nat, upTo: nat)
    requires columns <= |q| && upTo <= frames
    ensures |Stacked(q, columns, frames, upTo)| == upTo * columns
  {
    hide SliceStart;
    if upTo > 0 {
      StackedLength(q, columns, frames, upTo - 1);
      GroupEnd(upTo, columns);
    }
  }

  /** Column k of frame j of the image view is what came in as many steps ago as its slice lies before the
      end of the queue. */
  lemma ImageViewIsSlices(xs: seq<real>, r: nat, columns: nat, frames: nat, j: nat, k: nat, n: nat, at: nat)
    requires r > 0 && j < frames && k < columns && n == (r + (frames - 1)) * columns && at == j * columns + k
    ensures columns <= n && at < frames * columns
    ensures var view := Viewed(Img, After(n, xs), r, frames);
            var start := SliceStart(j, n - columns, frames);
            |view| == frames * columns && view[at] == Ago(xs, n - 1 - (start + k))
  {
    hide After, Ago, SliceStart, Stacked;
    Groups(1, r + (frames - 1), columns);
    Exactly(r + (frames - 1), columns);
    KeepsLength(n, xs);
    StackedAt(After(n, xs), columns, frames, frames, j, k);
    StackedLength(After(n, xs), columns, frames, j);
    StackedLength(After(n, xs), columns, frames, frames);
    QueueHoldsTheLast(n, xs, n - 1 - (SliceStart(j, n - columns, frames) + k));
  }

  /** The first slice is the oldest frame of the queue and the last the newest. */
  lemma SlicesSpanTheQueue(span: nat, frames: nat)
    requires frames > 1
    ensures SliceStart(0, span, frames) == 0 && SliceStart(frames - 1, span, frames) == span
  {
    Exactly(frames - 1, span);
    Exactly(frames - 1, 0);
  }

  /** When r - 1 is m times frames - 1 the slices are whole frames, m + 1 steps apart. */
  lemma SlicesAreFrames(r: nat, columns: nat, frames: nat, m: nat, j: nat)
    requires frames > 1 && j < frames && r == m * (frames - 1) + 1
    ensures var span := (r + (frames - 2)) * columns;
            span >= 0 && SliceStart(j, span, frames) == j * (m + 1) * columns
  {
    var d := frames - 1;
    FactorsOut(r, m, d);
    var span := (r + (frames - 2)) * columns;
    assert span >= 0;
    Reorder(j, m + 1, d, columns);
    assert j * span == d * (j * (m + 1) * columns);
    Exactly(d, j * (m + 1) * columns);
  }

  lemma FactorsOut(r: nat, m: nat, d: nat)
    requires r == m * d + 1
    ensures r + (d - 1) == (m + 1) * d
  {
  }

  lemma Reorder(j: nat, m: nat, d: nat, columns: nat)
    ensures j * (m * d * columns) == d * (j * m * columns) && j * m * columns >= 0
  {
  }

  /** With two stacked frames the image view is the frame of r steps ago and the newest one. */
  lemma ImageViewIsTwoFrames(xs: seq<real>, r: nat, columns: nat, k: nat, n: nat)
    requires r > 0 && k < columns && n == r * columns + columns
    ensures var view := Viewed(Img, After(n, xs), r, 2);
            |view| == 2 * columns
            && view[k] == Ago(xs, r * columns + columns - 1 - k)
            && view[columns + k] == Ago(xs, columns - 1 - k)
  {
    hide After, Ago, SliceStart, Viewed;
    assert n == (r + 1) * columns;
    ImageViewIsSlices(xs, r, columns, 2, 0, k, n, k);
    ImageViewIsSlices(xs, r, columns, 2, 1, k, n, columns + k);
    SlicesSpanTheQueue(n - columns, 2);
  }

  /** The queue of an input is the model's own length at equal rates, else r times it; for stacked frames
      it is r - 1 frames longer than the stack. The view of it always has the length the model wants. */
  lemma ViewHasModelLength(kind: Kind, length: nat, r: nat, frames: nat, columns: nat, q: seq<real>)
    requires r > 0 && frames > 0 && (kind == Img ==> length == frames * columns)
    requires |q| == QueueLength(kind, length, r, frames)
    ensures |q| == if r == 1 then length else if kind == Img then length + (r - 1) * columns else r * length
    ensures r > 1 ==> |Viewed(kind, q, r, frames)| == length
  {
    LengthOfQueue(kind, length, r, frames, columns);
    if r > 1 {
      match kind {
        case Img => ImageLength(q, r, frames, columns);
        case Pulse => PulseLength(q, r, length, frames);
        case Plain => TakenLength(q, r, length);
      }
    }
  }

  lemma LengthOfQueue(kind: Kind, length: nat, r: nat, frames: nat, columns: nat)
    requires r > 0 && frames > 0 && (kind == Img ==> length == frames * columns)
    ensures QueueLength(kind, length, r, frames)
            == if r == 1 then length else if kind == Img then (r + (frames - 1)) * columns else r * length
    ensures kind == Img ==> (r + (frames - 1)) * columns == length + (r - 1) * columns
  {
    LongerBy(r, frames, columns);
    Exactly(frames, columns);
  }

  lemma ColumnsExactly(n: nat, d: nat, columns: nat)
    requires d > 0 && n == d * columns
    ensures Columns(n, d) == columns
  {
    Exactly(d, columns);
  }

  lemma ImageLength(q: seq<real>, r: nat, frames: nat, columns: nat)
    requires r > 0 && frames > 0 && |q| == (r + (frames - 1)) * columns
    ensures |Viewed(Img, q, r, frames)| == frames * columns
  {
    ColumnsExactly(|q|, r + (frames - 1), columns);
    StackedLength(q, columns, frames, frames);
    hide SliceStart, Stacked, Columns;
  }

  lemma PulseLength(q: seq<real>, r: nat, length: nat, frames: nat)
    requires r > 0 && frames > 0 && |q| == r * length
    ensures |Viewed(Pulse, q, r, frames)| == length
  {
    hide Maxima;
    Exactly(r, length);
    MaximaLength(q, r, length);
  }

  lemma LongerBy(r: nat, frames: nat, columns: nat)
    requires r > 0
    ensures (r + (frames - 1)) * columns == frames * columns + (r - 1) * columns
    ensures 0 <= frames * columns
  {
  }

  lemma MaximaLength(q: seq<real>, r: nat, groups: nat)
    requires r > 0 && groups * r <= |q|
    ensures |Maxima(q, r, groups)| == groups
  {
    if groups > 0 {
      MaximaAt(q, r, groups, 0, 0);
    }
  }

  lemma TakenLength(q: seq<real>, r: nat, m: nat)
    requires r > 1 && |q| == r * m
    ensures |Taken(q, 1, r)| == m
  {
    if m > 0 {
      var p := (m - 1) * r;
      TakenAt(q, 1, r, m, 0, p);
    }
  }
}
