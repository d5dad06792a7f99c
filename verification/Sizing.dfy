/** The size of a session's VM (internal/controller/resource_builder.go), the legacy
    controller's cap on the request (controllers/labsession_controller.go), and what the
    session's pod and claims then hold. Quantities are the integers their accessors return:
    CPU in millicores, memory and storage in bytes. */
module Sizing {
  import opened Wrappers
  import opened Workload

  const MI := 0x10_0000
  const MAX_INT64 := 0x7FFF_FFFF_FFFF_FFFF
  const MAX_CPUS := 8
  const MIN_MIB := 128
  const MAX_MIB := 16384
  const DEFAULT_MIB := 1024
  const OVERHEAD_MIB := 128
  const DEFAULT_STORAGE := 10 * GI

  datatype VmSize = VmSize(cpus: int, memoryMiB: int)

  function Clamp(x: int, low: int, high: int): int {
    var atLeast := if x > low then x else low;
    if atLeast < high then atLeast else high
  }

  /** int64 addition. */
  function Add64(x: int, y: int): int {
    var sum := x + y;
    if sum > MAX_INT64 then sum - 0x1_0000_0000_0000_0000 else sum
  }

  /** Go's division truncates toward zero. */
  function Quotient(x: int, d: int): int
    requires d > 0
  {
    if x >= 0 then x / d else -(-x / d)
  }

  /** No request stands for one that is missing or does not parse. */
  function Cpus(request: Option<int>): int {
    if request.Some? && request.value > 0 then Clamp(Quotient(Add64(request.value, 999), 1000), 1, MAX_CPUS)
    else 1
  }

  function MemoryMiB(request: Option<int>): int {
    if request.Some? && request.value > 0 then Clamp(request.value / MI, MIN_MIB, MAX_MIB) else DEFAULT_MIB
  }

  /** vmSize: defaults first, overwritten by what the request sets, then clamped. */
  method SizeOf(cpu: Option<int>, memory: Option<int>) returns (size: VmSize)
    requires (cpu.Some? ==> cpu.value <= MAX_INT64) && (memory.Some? ==> memory.value <= MAX_INT64)
    ensures size == VmSize(Cpus(cpu), MemoryMiB(memory))
    ensures 1 <= size.cpus <= MAX_CPUS && MIN_MIB <= size.memoryMiB <= MAX_MIB
  {
    size := VmSize(1, DEFAULT_MIB);
    if cpu.Some? && cpu.value > 0 {
      size := size.(cpus := Quotient(Add64(cpu.value, 999), 1000));
    }
    if memory.Some? && memory.value > 0 {
      size := size.(memoryMiB := memory.value / MI);
    }
    size := size.(cpus := Clamp(size.cpus, 1, MAX_CPUS));
    size := size.(memoryMiB := Clamp(size.memoryMiB, MIN_MIB, MAX_MIB));
  }

  /** enforceResourceLimits: cap at the maximum; a request that does not parse becomes the default. */
  function CapCpu(request: Option<int>): Option<int> {
    if request.None? then Some(2000) else if request.value > 8000 then Some(8000) else request
  }

  function CapMemory(request: Option<int>): Option<int> {
    if request.None? then Some(4 * GI) else if request.value > 16 * GI then Some(16 * GI) else request
  }

  /** Capping first does not change the VM, for every parsable memory request and exactly the
      CPU requests whose rounding up does not overflow int64. */
  lemma CapKeepsVm(cpu: int, memory: int)
    requires cpu <= MAX_INT64 && memory <= MAX_INT64
    ensures MemoryMiB(CapMemory(Some(memory))) == MemoryMiB(Some(memory))
    ensures Cpus(CapCpu(Some(cpu))) == Cpus(Some(cpu)) <==> cpu <= MAX_INT64 - 999
  {
    if cpu > MAX_INT64 - 999 {
      assert Add64(cpu, 999) < 0;
      assert Quotient(Add64(cpu, 999), 1000) <= 0;
    }
  }

  /** A request that is missing or does not parse gets a larger VM through the legacy cap. */
  lemma CapChangesDefault()
    ensures Cpus(CapCpu(None)) == 2 && Cpus(None) == 1
    ensures MemoryMiB(CapMemory(None)) == 4096 && MemoryMiB(None) == 1024
  {
  }

  /** A larger CPU request gives no smaller VM, except that one whose rounding up overflows
      int64 gets one vCPU, fewer than a request above 1000m that does not overflow. */
  lemma CpusMonotone(a: int, b: int)
    requires a <= b <= MAX_INT64
    ensures Cpus(Some(a)) <= Cpus(Some(b)) <==> a <= 1000 || b <= MAX_INT64 - 999 || a > MAX_INT64 - 999
  {
    CpusOf(a);
    CpusOf(b);
  }

  /** The vCPUs a request gets: its millicores rounded up, or one if that overflows. */
  lemma CpusOf(request: int)
    requires request <= MAX_INT64
    ensures 1 <= Cpus(Some(request)) <= MAX_CPUS
    ensures Cpus(Some(request)) == 1 <==> request <= 1000 || request > MAX_INT64 - 999
    ensures 0 < request <= MAX_INT64 - 999 ==>
              var n := Cpus(Some(request)); if request > 8000 then n == 8 else 1000 * (n - 1) < request <= 1000 * n
    ensures request <= 0 ==> Cpus(Some(request)) == Cpus(None) == 1
  {
    if request > MAX_INT64 - 999 {
      assert Add64(request, 999) < 0;
      assert Quotient(Add64(request, 999), 1000) <= 0;
    }
  }

  /** The memory a request gets: its whole MiB, at least 128 and at most 16384, or 1024 without
      a positive request. */
  lemma MemoryOfRequest(request: int)
    ensures var m := MemoryMiB(Some(request));
            if request <= 0 then m == MemoryMiB(None) == 1024
            else if request < 128 * 1_048_576 then m == 128
            else if request >= 16384 * 1_048_576 then m == 16384
            else m * 1_048_576 <= request < (m + 1) * 1_048_576
  {
    if request > 0 {
      assert request / MI >= 128 <==> request >= 128 * MI;
      assert request / MI >= 16384 <==> request >= 16384 * MI;
    }
  }

  /** The legacy cap lowers a request to 8 CPUs and 16 GiB and keeps a smaller one; one that does
      not parse becomes 2 CPUs and 4 GiB. */
  lemma CapLimits(cpu: Option<int>, memory: Option<int>)
    ensures match CapCpu(cpu)
            case None => false
            case Some(n) => n <= 8000 && if cpu.None? then n == 2000 else n <= cpu.value && (n < cpu.value ==> n == 8000)
    ensures match CapMemory(memory)
            case None => false
            case Some(n) => n <= 17_179_869_184 && if memory.None? then n == 4_294_967_296 else n <= memory.value && (n < memory.value ==> n == 17_179_869_184)
  {
  }

  /** Memory is monotone except that a request of zero or less takes the 1 GiB default, more
      than a positive request below it gets. */
  lemma MemoryMonotone(a: int, b: int)
    requires a <= b
    ensures MemoryMiB(Some(a)) <= MemoryMiB(Some(b)) <==> a > 0 || b <= 0 || b >= DEFAULT_MIB * MI
  {
    if a > 0 { assert a / MI <= b / MI; }
    if b > 0 { assert b / MI >= DEFAULT_MIB <==> b >= DEFAULT_MIB * MI; }
  }

  /** The three containers' requests in BuildPod. */
  function PodContainers(size: VmSize): seq<Container>
    requires size.memoryMiB >= 0
  {
    [Container(100, (size.memoryMiB + OVERHEAD_MIB) * MI), Container(250, 256 * MI), Container(500, GI)]
  }

  /** A missing storage request takes the default. */
  function Storage(request: Option<nat>): nat {
    if request.Some? then request.value else DEFAULT_STORAGE
  }

  /** A session whose pod holds its resources always reports 850m CPU, its VM's memory plus
      1408 MiB, and its disk plus 5 GiB; without such a pod only the storage. */
  lemma UsageOfSession(pod: Pod, cpu: Option<int>, memory: Option<int>, storage: Option<nat>)
    requires (cpu.Some? ==> cpu.value <= MAX_INT64) && (memory.Some? ==> memory.value <= MAX_INT64)
    requires pod.containers == PodContainers(VmSize(Cpus(cpu), MemoryMiB(memory)))
    ensures var disk := (if storage.Some? then storage.value else 10_737_418_240) + 5_368_709_120;
            Held(Some(pod), Claims(Storage(storage))) ==
            if Occupies(Some(pod)) then Usage(true, 850, (MemoryMiB(memory) + 1408) * 1_048_576, disk)
            else Usage(false, 0, 0, disk)
  {
    var cs := pod.containers;
    ThreeContainers(cs[0], cs[1], cs[2]);
    assert cs == [cs[0], cs[1], cs[2]];
    var ds := Claims(Storage(storage));
    assert ds[1..] == [ds[1]];
    assert SumOf(ds) == ds[0] + SumOf([ds[1]]);
  }

  lemma ThreeContainers(a: Container, b: Container, c: Container)
    ensures CpuOf([a, b, c]) == a.cpuMilli + b.cpuMilli + c.cpuMilli
    ensures MemoryOf([a, b, c]) == a.memory + b.memory + c.memory
  {
    assert [a, b, c][1..] == [b, c] && [b, c][1..] == [c] && [c][1..] == [];
    assert CpuOf([c]) == c.cpuMilli && MemoryOf([c]) == c.memory;
    assert CpuOf([b, c]) == b.cpuMilli + c.cpuMilli && MemoryOf([b, c]) == b.memory + c.memory;
  }
}
