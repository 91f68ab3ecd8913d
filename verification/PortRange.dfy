/** The first-fit allocator of node ports, and what it promises over any history of calls. */
module PortRanges {
  import opened Wrappers

  newtype Port = x: int | 0 <= x < 0x1_0000

  const MIN_PORT_BORDER: Port := 20000
  const MAX_PORT_BORDER: Port := 24999

  datatype PortError = PortIsZero | PortTooLarge | PortTooSmall | PortNotBusy | DifferentPort

  datatype RangeError = EmptyRange | MaxOutsideBorders | MinOutsideBorders | MinAboveMax

  // ---------- The pool as a value ----------

  datatype Pool = Pool(portMin: Port, portMax: Port, busy: set<Port>) {
    predicate Valid() {
      && MIN_PORT_BORDER <= portMin <= portMax <= MAX_PORT_BORDER
      && forall p :: p in busy ==> portMin <= p <= portMax
    }

    // The number of ports the pool can lease at once.
    function Capacity(): nat
      requires Valid()
    {
      (portMax as int) - (portMin as int) + 1
    }
  }

  function LeastFree(lo: Port, hi: Port, busy: set<Port>): (r: Option<Port>)
    requires hi <= MAX_PORT_BORDER
    ensures r.Some? ==> lo <= r.value <= hi && r.value !in busy && forall q :: lo <= q < r.value ==> q in busy
    ensures r.None? ==> forall q :: lo <= q <= hi ==> q in busy
    decreases (hi as int) + 1 - (lo as int)
  {
    if lo > hi then None
    else if lo !in busy then Some(lo)
    else LeastFree(lo + 1, hi, busy)
  }

  function Lease(pool: Pool): (r: (Pool, Option<Port>))
    requires pool.Valid()
    ensures r.0.Valid()
  {
    match LeastFree(pool.portMin, pool.portMax, pool.busy)
    case None => (pool, None)
    case Some(p) => (pool.(busy := pool.busy + {p}), Some(p))
  }

  function ValidatePort(p: Port): (r: Option<PortError>)
    ensures r.None? <==> MIN_PORT_BORDER <= p <= MAX_PORT_BORDER
  {
    if p == 0 then Some(PortIsZero)
    else if p > MAX_PORT_BORDER then Some(PortTooLarge)
    else if p < MIN_PORT_BORDER then Some(PortTooSmall)
    else None
  }

  function GiveBack(pool: Pool, p: Port): (r: (Pool, Option<PortError>))
    ensures pool.Valid() ==> r.0.Valid()
  {
    match ValidatePort(p)
    case Some(e) => (pool, Some(e))
    case None =>
      if p in pool.busy then (pool.(busy := pool.busy - {p}), None) else (pool, Some(PortNotBusy))
  }

  // uint16 subtraction wraps around.
  function SubtractUint16(a: Port, b: Port): Port {
    ((a as int - b as int) % 0x1_0000) as Port
  }

  // The guards of the constructor: a usable range lies inside the borders and holds at least two ports.
  function RangeProblem(portMin: Port, portMax: Port): (r: Option<RangeError>)
    ensures r.None? <==> MIN_PORT_BORDER <= portMin < portMax <= MAX_PORT_BORDER
  {
    if portMin == 0 && portMax == 0 then Some(EmptyRange)
    else if SubtractUint16(portMax, portMin) == 0 then Some(EmptyRange)
    else if portMax > MAX_PORT_BORDER || portMax < MIN_PORT_BORDER then Some(MaxOutsideBorders)
    else if portMin > MAX_PORT_BORDER || portMin < MIN_PORT_BORDER then Some(MinOutsideBorders)
    else if portMin > portMax then Some(MinAboveMax)
    else None
  }

  // ---------- The allocator object ----------

  datatype PortState = PortState(port: Port)

  class PortRange {
    const portMin: Port
    const portMax: Port
    var busyPortRange: map<Port, PortState>

    ghost predicate Valid()
      reads this
    {
      && MIN_PORT_BORDER <= portMin <= portMax <= MAX_PORT_BORDER
      && forall p :: p in busyPortRange ==> portMin <= p <= portMax && busyPortRange[p].port == p
    }

    ghost function Contents(): (pool: Pool)
      reads this
      ensures Valid() ==> pool.Valid()
    {
      Pool(portMin, portMax, busyPortRange.Keys)
    }

    constructor (portMin: Port, portMax: Port)
      requires RangeProblem(portMin, portMax).None?
      ensures Valid() && Contents() == Pool(portMin, portMax, {})
    {
      this.portMin, this.portMax := portMin, portMax;
      busyPortRange := map[];
    }

    method GetPort() returns (r: Option<PortState>)
      requires Valid()
      modifies this
      ensures Valid()
      ensures Contents() == Lease(old(Contents())).0
      ensures r == match Lease(old(Contents())).1 case None => None case Some(p) => Some(PortState(p))
    {
      var i := portMin;
      while i <= portMax
        invariant portMin <= i <= portMax + 1
        invariant LeastFree(portMin, portMax, busyPortRange.Keys) == LeastFree(i, portMax, busyPortRange.Keys)
        invariant busyPortRange == old(busyPortRange)
      {
        if i !in busyPortRange {
          busyPortRange := busyPortRange[i := PortState(i)];
          return Some(busyPortRange[i]);
        }
        i := i + 1;
      }
      return None;
    }

    method PortBack(port: Port) returns (r: Option<PortError>)
      requires Valid()
      modifies this
      ensures Valid()
      ensures (Contents(), r) == GiveBack(old(Contents()), port)
    {
      var invalid := ValidatePort(port);
      if invalid.Some? {
        return invalid;
      }
      if port in busyPortRange {
        if busyPortRange[port].port != port {
          return Some(DifferentPort);
        }
        busyPortRange := busyPortRange - {port};
        return None;
      }
      return Some(PortNotBusy);
    }
  }

  // A range outside the borders, or of fewer than two ports, is refused; a new one has no busy port.
  method NewPortRange(portMin: Port, portMax: Port) returns (r: Result<PortRange, RangeError>)
    ensures r.Ok? <==> MIN_PORT_BORDER <= portMin < portMax <= MAX_PORT_BORDER
    ensures r.Err? ==> Some(r.error) == RangeProblem(portMin, portMax)
    ensures r.Ok? ==> fresh(r.value) && r.value.Valid() && r.value.Contents() == Pool(portMin, portMax, {})
  {
    var problem := RangeProblem(portMin, portMax);
    if problem.Some? {
      return Err(problem.value);
    }
    var portRange := new PortRange(portMin, portMax);
    return Ok(portRange);
  }

  // ---------- Histories of calls ----------

  datatype Call = Get | Back(port: Port)

  datatype Reply = Leased(port: Port) | Exhausted | Released | Rejected(error: PortError)

  function Serve(pool: Pool, call: Call): (r: (Pool, Reply))
    requires pool.Valid()
    ensures r.0.Valid() && r.0.portMin == pool.portMin && r.0.portMax == pool.portMax
  {
    match call
    case Get =>
      var (after, port) := Lease(pool);
      (after, if port.Some? then Leased(port.value) else Exhausted)
    case Back(p) =>
      var (after, error) := GiveBack(pool, p);
      (after, if error.None? then Released else Rejected(error.value))
  }

  function After(pool: Pool, calls: seq<Call>): (r: Pool)
    requires pool.Valid()
    ensures r.Valid() && r.portMin == pool.portMin && r.portMax == pool.portMax
  {
    if calls == [] then pool
    else Serve(After(pool, calls[..|calls| - 1]), calls[|calls| - 1]).0
  }

  function ReplyAt(pool: Pool, calls: seq<Call>, i: nat): Reply
    requires pool.Valid() && i < |calls|
  {
    Serve(After(pool, calls[..i]), calls[i]).1
  }

  function Count(pool: Pool, calls: seq<Call>, n: nat, what: Reply -> bool): nat
    requires pool.Valid() && n <= |calls|
  {
    if n == 0 then 0
    else Count(pool, calls, n - 1, what) + if what(ReplyAt(pool, calls, n - 1)) then 1 else 0
  }

  lemma AfterOneMore(pool: Pool, calls: seq<Call>, i: nat)
    requires pool.Valid() && i < |calls|
    ensures After(pool, calls[..i + 1]) == Serve(After(pool, calls[..i]), calls[i]).0
  {
    assert calls[..i + 1][..i] == calls[..i];
  }

  // Giving back frees exactly a busy port; every other is refused, and the error says why.
  lemma BackDecides(pool: Pool, p: Port)
    requires pool.Valid()
    ensures var (after, error) := GiveBack(pool, p);
            && (error.None? <==> p in pool.busy)
            && after == pool.(busy := pool.busy - {p})
            && (error == Some(PortIsZero) <==> p == 0)
            && (error == Some(PortTooLarge) <==> p > 24999)
            && (error == Some(PortTooSmall) <==> 0 < p < 20000)
            && (error == Some(PortNotBusy) <==> 20000 <= p <= 24999 && p !in pool.busy)
  {
    if p !in pool.busy {
      assert pool.busy - {p} == pool.busy;
    }
  }

  // The guards, uint16 wrap-around included, come to plain comparisons: a range without two different ends is empty,
  // then the larger end is checked against the borders, then the smaller, then their order.
  lemma RangeErrors(portMin: Port, portMax: Port)
    ensures var r := RangeProblem(portMin, portMax);
            && (r.None? <==> 20000 <= portMin < portMax <= 24999)
            && (r == Some(EmptyRange) <==> portMin == portMax)
            && (r == Some(MaxOutsideBorders) <==> portMin != portMax && !(20000 <= portMax <= 24999))
            && (r == Some(MinOutsideBorders) <==>
                  portMin != portMax && 20000 <= portMax <= 24999 && !(20000 <= portMin <= 24999))
            && (r == Some(MinAboveMax) <==> 20000 <= portMax < portMin <= 24999)
  {
  }

  // The set of ports lo, lo + 1, ..., lo + n - 1.
  function Block(lo: Port, n: nat): (s: set<Port>)
    requires lo as int + n <= 0x1_0000
    ensures |s| == n
    ensures forall p: Port :: p in s <==> lo as int <= p as int < lo as int + n
  {
    if n == 0 then {} else Block(lo, n - 1) + {((lo as int) + n - 1) as Port}
  }

  lemma BoundedBusy(pool: Pool)
    requires pool.Valid()
    ensures |pool.busy| <= pool.Capacity()
    ensures |pool.busy| == pool.Capacity() <==> forall p :: pool.portMin <= p <= pool.portMax ==> p in pool.busy
  {
    var all := Block(pool.portMin, pool.Capacity());
    assert pool.busy <= all;
    SubsetSize(pool.busy, all);
  }

  lemma SubsetSize(a: set<Port>, b: set<Port>)
    requires a <= b
    ensures |a| <= |b|
    ensures |a| == |b| <==> a == b
  {
    assert b == a + (b - a);
  }

  // Lease hands out the least free port of the range, and nothing exactly when the busy count is the whole range.
  lemma LeaseIsLeast(pool: Pool)
    requires pool.Valid()
    ensures Lease(pool).1.None? <==> |pool.busy| == pool.Capacity()
    ensures var (after, r) := Lease(pool);
            r.Some? ==>
              && pool.portMin <= r.value <= pool.portMax
              && r.value !in pool.busy && after.busy == pool.busy + {r.value}
              && forall q :: pool.portMin <= q <= pool.portMax && q !in pool.busy ==> r.value <= q
  {
    BoundedBusy(pool);
  }

  // A leased port stays busy until some call gives it back.
  lemma {:induction false} StaysBusy(pool: Pool, calls: seq<Call>, i: nat, j: nat, p: Port)
    requires pool.Valid() && i <= j <= |calls|
    requires p in After(pool, calls[..i]).busy
    ensures p in After(pool, calls[..j]).busy
            || exists k :: i <= k < j && calls[k] == Back(p) && ReplyAt(pool, calls, k) == Released
  {
    hide LeastFree, Count;
    if i < j {
      StaysBusy(pool, calls, i, j - 1, p);
      AfterOneMore(pool, calls, j - 1);
      var before := After(pool, calls[..j - 1]);
      if p in before.busy && p !in After(pool, calls[..j]).busy {
        assert calls[j - 1] == Back(p) && ReplyAt(pool, calls, j - 1) == Released;
      }
    }
  }

  // No port is handed out twice without a successful PortBack of it in between.
  lemma NoDoubleLease(pool: Pool, calls: seq<Call>, i: nat, j: nat, p: Port)
    requires pool.Valid() && i < j < |calls|
    requires ReplyAt(pool, calls, i) == Leased(p) && ReplyAt(pool, calls, j) == Leased(p)
    ensures exists k :: i < k < j && calls[k] == Back(p) && ReplyAt(pool, calls, k) == Released
  {
    AfterOneMore(pool, calls, i);
    StaysBusy(pool, calls, i + 1, j, p);
  }

  // Successful gets minus successful backs is the change in the busy count.
  lemma {:induction false} Conservation(pool: Pool, calls: seq<Call>, n: nat)
    requires pool.Valid() && n <= |calls|
    ensures |After(pool, calls[..n]).busy| - |pool.busy|
            == Count(pool, calls, n, (r: Reply) => r.Leased?) - Count(pool, calls, n, (r: Reply) => r.Released?)
  {
    if n > 0 {
      Conservation(pool, calls, n - 1);
      AfterOneMore(pool, calls, n - 1);
    } else {
      assert calls[..0] == [];
    }
  }

  function Gets(n: nat): seq<Call> {
    seq(n, _ => Get)
  }

  // A get from a pool whose busy ports are the first n takes the next one.
  lemma GetFromBlock(pool: Pool, n: nat)
    requires pool.Valid() && n < pool.Capacity() && pool.busy == Block(pool.portMin, n)
    ensures Serve(pool, Get).1 == Leased(((pool.portMin as int) + n) as Port)
    ensures Serve(pool, Get).0.busy == Block(pool.portMin, n + 1)
  {
    hide LeastFree;
    LeaseIsLeast(pool);
    assert ((pool.portMin as int) + n) as Port !in Block(pool.portMin, n);
  }

  lemma {:induction false} FreshBusy(lo: Port, hi: Port, n: nat)
    requires Pool(lo, hi, {}).Valid() && n <= Pool(lo, hi, {}).Capacity()
    ensures After(Pool(lo, hi, {}), Gets(n)).busy == Block(lo, n)
  {
    hide Serve, Block;
    if n > 0 {
      FreshBusy(lo, hi, n - 1);
      assert Gets(n)[..n - 1] == Gets(n - 1);
      GetFromBlock(After(Pool(lo, hi, {}), Gets(n - 1)), n - 1);
    } else {
      EmptyBlock(lo);
    }
  }

  lemma EmptyBlock(lo: Port)
    ensures Block(lo, 0) == {}
  {
  }

  // From a fresh range, the i-th of any number of gets leases the i-th port, until the range is used up.
  lemma FreshGets(lo: Port, hi: Port, n: nat, i: nat)
    requires Pool(lo, hi, {}).Valid() && i < n
    ensures ReplyAt(Pool(lo, hi, {}), Gets(n), i)
            == if i < Pool(lo, hi, {}).Capacity() then Leased(((lo as int) + i) as Port) else Exhausted
  {
    var pool := Pool(lo, hi, {});
    assert Gets(n)[..i] == Gets(i);
    if i < pool.Capacity() {
      FreshBusy(lo, hi, i);
      GetFromBlock(After(pool, Gets(i)), i);
    } else {
      ExhaustedStays(lo, hi, i);
      LeaseIsLeast(After(pool, Gets(i)));
    }
  }

  lemma {:induction false} ExhaustedStays(lo: Port, hi: Port, n: nat)
    requires Pool(lo, hi, {}).Valid() && n >= Pool(lo, hi, {}).Capacity()
    ensures |After(Pool(lo, hi, {}), Gets(n)).busy| == Pool(lo, hi, {}).Capacity()
  {
    var pool := Pool(lo, hi, {});
    if n == pool.Capacity() {
      FreshBusy(lo, hi, n);
    } else {
      ExhaustedStays(lo, hi, n - 1);
      assert Gets(n)[..n - 1] == Gets(n - 1) && Gets(n)[..n] == Gets(n);
      AfterOneMore(pool, Gets(n), n - 1);
      LeaseIsLeast(After(pool, Gets(n - 1)));
    }
  }
}
