/** What one frame submits, as a function of the configuration, the two bind
    groups and the frame counter, and the sequence of frames a session
    submits from its start. */
module Schedule {
  import opened Gpu
  import opened Bindings

  /** Grid width and height in cells, and the compute workgroup edge length. */
  datatype Config = Config(width: nat, height: nat, workgroupSize: nat)

  predicate ValidConfig(cfg: Config)
  {
    cfg.width >= 1 && cfg.height >= 1 && cfg.workgroupSize >= 1
  }

  /** The commands one frame records: the compute pass's bind group and
      workgroup counts, then the render pass's bind group and draw counts. */
  datatype FrameRecord = FrameRecord(
    computeGroup: BindGroup, dispatchX: nat, dispatchY: nat,
    renderGroup: BindGroup, vertexCount: nat, instanceCount: nat)

  /** Math.ceil(n / d) for a positive divisor: the fewest workgroups of `d`
      cells that cover `n` cells. */
  function CeilDiv(n: nat, d: nat): (q: nat)
    requires d >= 1
    ensures q * d >= n
    ensures (q - 1) * d < n
  {
    var q := (n + d - 1) / d;
    var r := (n + d - 1) % d;
    assert n + d - 1 == q * d + r;
    q
  }

  lemma MulMonotone(a: nat, b: nat, d: nat)
    requires a <= b
    ensures a * d <= b * d
  {
  }

  /** Every cell index below `n` lies in a dispatched workgroup, and every
      dispatched workgroup starts at a cell index below `n`. */
  lemma CellInDispatchedWorkgroup(n: nat, d: nat, x: nat)
    requires d >= 1
    ensures x < n ==> x / d < CeilDiv(n, d)
    ensures x < CeilDiv(n, d) ==> x * d < n
  {
    var q := CeilDiv(n, d);
    if x < n && q <= x / d {
      MulMonotone(q, x / d, d);
      assert false;
    }
    if x < q {
      MulMonotone(x, q - 1, d);
    }
  }

  /** One workgroup covers a grid edge no longer than the workgroup, and
      workgroups of one cell need one workgroup per cell. */
  lemma CeilDivSmall(n: nat, d: nat)
    requires d >= 1
    ensures 1 <= n <= d ==> CeilDiv(n, d) == 1
    ensures d == 1 ==> CeilDiv(n, d) == n
  {
    var q := CeilDiv(n, d);
    if 1 <= n <= d && q >= 2 {
      MulMonotone(1, q - 1, d);
    }
    if d == 1 {
      assert q * d == q && (q - 1) * d == q - 1;
    }
  }

  /** The frame recorded when the counter reads `cycle`: compute binds
      group cycle % 2, the counter is incremented, render binds the group
      the new counter selects. */
  function FrameAt(cfg: Config, groups: seq<BindGroup>, cycle: nat): (f: FrameRecord)
    requires cfg.workgroupSize >= 1 && |groups| == 2
    ensures f.computeGroup == groups[cycle % 2]
    ensures f.renderGroup == groups[(cycle + 1) % 2]
    ensures Swapped(groups) ==> f.renderGroup.input == f.computeGroup.output
    ensures Swapped(groups) && NoAliasing(groups) ==> f.renderGroup != f.computeGroup
    ensures f.dispatchX * cfg.workgroupSize >= cfg.width && (f.dispatchX - 1) * cfg.workgroupSize < cfg.width
    ensures f.dispatchY * cfg.workgroupSize >= cfg.height && (f.dispatchY - 1) * cfg.workgroupSize < cfg.height
    ensures f.vertexCount == 6 && f.instanceCount == cfg.width * cfg.height
  {
    var next := cycle + 1;
    FrameRecord(
      groups[cycle % 2], CeilDiv(cfg.width, cfg.workgroupSize), CeilDiv(cfg.height, cfg.workgroupSize),
      groups[next % 2], VertexCount, cfg.width * cfg.height)
  }

  /** The frames a session submits in its first `n` calls. */
  function Trace(cfg: Config, groups: seq<BindGroup>, n: nat): (t: seq<FrameRecord>)
    requires cfg.workgroupSize >= 1 && |groups| == 2
    ensures |t| == n
  {
    if n == 0 then [] else Trace(cfg, groups, n - 1) + [FrameAt(cfg, groups, n - 1)]
  }

  /** The k-th frame of a trace is the frame recorded with the counter at k. */
  lemma {:induction false} TraceAt(cfg: Config, groups: seq<BindGroup>, n: nat, k: nat)
    requires cfg.workgroupSize >= 1 && |groups| == 2
    requires k < n
    ensures Trace(cfg, groups, n)[k] == FrameAt(cfg, groups, k)
  {
    if k < n - 1 {
      TraceAt(cfg, groups, n - 1, k);
    }
  }

  /** A longer trace extends a shorter one: frames already submitted never change. */
  lemma {:induction false} TracePrefix(cfg: Config, groups: seq<BindGroup>, m: nat, n: nat)
    requires cfg.workgroupSize >= 1 && |groups| == 2
    requires m <= n
    ensures Trace(cfg, groups, m) == Trace(cfg, groups, n)[..m]
  {
    if m < n {
      TracePrefix(cfg, groups, m, n - 1);
    }
  }

  /** In frame N (counted from 1) compute used group (N - 1) % 2, and the
      first frame's compute reads group A's input. */
  lemma {:induction false} ComputeParity(cfg: Config, groups: seq<BindGroup>, n: nat)
    requires cfg.workgroupSize >= 1 && |groups| == 2
    requires n >= 1
    ensures Trace(cfg, groups, n)[n - 1].computeGroup == groups[(n - 1) % 2]
    ensures Trace(cfg, groups, n)[0].computeGroup == groups[0]
  {
    TraceAt(cfg, groups, n, n - 1);
    TraceAt(cfg, groups, n, 0);
  }

  /** The hand-off between stages and frames: in frame k render reads the
      buffer compute wrote; compute in frame k + 1 reads that same buffer;
      consecutive frames render with different groups. */
  lemma {:induction false} HandOff(cfg: Config, groups: seq<BindGroup>, n: nat, k: nat)
    requires cfg.workgroupSize >= 1 && Swapped(groups)
    requires k + 1 < n
    ensures Trace(cfg, groups, n)[k].renderGroup.input == Trace(cfg, groups, n)[k].computeGroup.output
    ensures Trace(cfg, groups, n)[k + 1].computeGroup.input == Trace(cfg, groups, n)[k].computeGroup.output
    ensures NoAliasing(groups) ==>
              Trace(cfg, groups, n)[k + 1].renderGroup != Trace(cfg, groups, n)[k].renderGroup
  {
    TraceAt(cfg, groups, n, k);
    TraceAt(cfg, groups, n, k + 1);
    var t := Trace(cfg, groups, n);
    assert t[k + 1].renderGroup == groups[(k + 2) % 2];
    assert t[k].renderGroup == groups[(k + 1) % 2];
    assert (k + 2) % 2 == k % 2;
    if k % 2 == 0 {
      assert (k + 1) % 2 == 1;
    } else {
      assert (k + 1) % 2 == 0;
    }
  }

  /** Changing only the workgroup size changes only the dispatch counts:
      the same groups are bound and the same draw is issued in every frame. */
  lemma {:induction false} WorkgroupSizeOnlyAffectsDispatch(cfg: Config, cfg': Config, groups: seq<BindGroup>, n: nat, k: nat)
    requires cfg.workgroupSize >= 1 && cfg'.workgroupSize >= 1 && |groups| == 2
    requires cfg.width == cfg'.width && cfg.height == cfg'.height
    requires k < n
    ensures Trace(cfg, groups, n)[k].computeGroup == Trace(cfg', groups, n)[k].computeGroup
    ensures Trace(cfg, groups, n)[k].renderGroup == Trace(cfg', groups, n)[k].renderGroup
    ensures Trace(cfg, groups, n)[k].vertexCount == Trace(cfg', groups, n)[k].vertexCount
    ensures Trace(cfg, groups, n)[k].instanceCount == Trace(cfg', groups, n)[k].instanceCount
  {
    TraceAt(cfg, groups, n, k);
    TraceAt(cfg', groups, n, k);
  }
}
