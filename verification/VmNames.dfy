/** VM names and the volumes named after them: why a name may not end in a `-data<N>` marker. */
module VmNames {
  import opened Wrappers

  // ---- Names the plan may use -----------------------------------------------------------

  predicate Digit(c: char) {
    '0' <= c <= '9'
  }

  predicate Alnum(c: char) {
    Digit(c) || 'a' <= c <= 'z' || 'A' <= c <= 'Z'
  }

  /** `[A-Za-z0-9_][A-Za-z0-9_.-]*` */
  predicate Safe(n: string) {
    && n != [] && (Alnum(n[0]) || n[0] == '_')
    && forall i | 0 <= i < |n| :: Alnum(n[i]) || n[i] in "_.-"
  }

  predicate Reserved(n: string) {
    "__" <= n
  }

  function Lower(c: char): char {
    if 'A' <= c <= 'Z' then (c as int + 32) as char else c
  }

  /** Length of `n` without its trailing digits. */
  function Stem(n: string): (k: nat)
    ensures k <= |n| && (forall i | k <= i < |n| :: Digit(n[i])) && (k > 0 ==> !Digit(n[k - 1]))
  {
    if n == [] || !Digit(n[|n| - 1]) then |n| else Stem(n[..|n| - 1])
  }

  /** `[-_.]data\\d+$`, ignoring case: found by scanning back over the digits. */
  predicate Marked(n: string) {
    var k := Stem(n);
    && 5 <= k < |n| && n[k - 5] in "-_."
    && Lower(n[k - 4]) == 'd' && Lower(n[k - 3]) == 'a' && Lower(n[k - 2]) == 't' && Lower(n[k - 1]) == 'a'
  }

  /** The pattern itself matches at `i`. */
  ghost predicate MatchesAt(n: string, i: nat) {
    && i + 5 < |n| && n[i] in "-_."
    && Lower(n[i + 1]) == 'd' && Lower(n[i + 2]) == 'a' && Lower(n[i + 3]) == 't' && Lower(n[i + 4]) == 'a'
    && forall j | i + 5 <= j < |n| :: Digit(n[j])
  }

  lemma {:induction false} StemAfterLetter(n: string, i: nat)
    requires 0 < i <= |n| && !Digit(n[i - 1]) && forall j | i <= j < |n| :: Digit(n[j])
    ensures Stem(n) == i
  {
    if i < |n| {
      StemAfterLetter(n[..|n| - 1], i);
    }
  }

  /** Scanning back finds exactly the pattern. */
  lemma MarkedIsThePattern(n: string)
    ensures Marked(n) <==> exists i: nat :: MatchesAt(n, i)
  {
    if Marked(n) {
      assert MatchesAt(n, Stem(n) - 5);
    }
    if i: nat :| MatchesAt(n, i) {
      StemAfterLetter(n, i + 5);
    }
  }

  // ---- validate_vm_plan ----------------------------------------------------------------------

  datatype Vm = Vm(name: string, osPool: string)

  datatype VmError =
    | DuplicateNames
    | UnsafeName(name: string)
    | ReservedPrefix
    | DataMarker
    | UnknownPool(vm: string, pool: string)

  function NamesOf(vms: seq<Vm>): (r: seq<string>)
    ensures |r| == |vms| && forall i | 0 <= i < |r| :: r[i] == vms[i].name
  {
    seq(|vms|, i requires 0 <= i < |vms| => vms[i].name)
  }

  function FirstUnsafe(names: seq<string>): Option<string> {
    if names == [] then None else if !Safe(names[0]) then Some(names[0]) else FirstUnsafe(names[1..])
  }

  function FirstUnpooled(vms: seq<Vm>, pools: seq<string>): Option<Vm> {
    if vms == [] then None else if vms[0].osPool !in pools then Some(vms[0]) else FirstUnpooled(vms[1..], pools)
  }

  function ValidateVmPlan(vms: seq<Vm>, pools: seq<string>): Option<VmError> {
    var names := NamesOf(vms);
    if exists i, j :: 0 <= i < j < |names| && names[i] == names[j] then Some(DuplicateNames)
    else if FirstUnsafe(names).Some? then Some(UnsafeName(FirstUnsafe(names).value))
    else if exists i :: 0 <= i < |names| && Reserved(names[i]) then Some(ReservedPrefix)
    else if exists i :: 0 <= i < |names| && Marked(names[i]) then Some(DataMarker)
    else
      match FirstUnpooled(vms, pools)
      case Some(v) => Some(UnknownPool(v.name, v.osPool))
      case None => None
  }

  lemma {:induction false} FirstUnsafeFound(names: seq<string>)
    ensures FirstUnsafe(names).None? <==> forall i | 0 <= i < |names| :: Safe(names[i])
  {
    if names != [] && Safe(names[0]) {
      FirstUnsafeFound(names[1..]);
      assert forall i | 1 <= i < |names| :: names[i] == names[1..][i - 1];
    }
  }

  lemma {:induction false} FirstUnpooledFound(vms: seq<Vm>, pools: seq<string>)
    ensures FirstUnpooled(vms, pools).None? <==> forall i | 0 <= i < |vms| :: vms[i].osPool in pools
  {
    if vms != [] && vms[0].osPool in pools {
      FirstUnpooledFound(vms[1..], pools);
      assert forall i | 1 <= i < |vms| :: vms[i] == vms[1..][i - 1];
    }
  }

  /** Exactly the plans the validator lets through. */
  lemma AcceptedExactly(vms: seq<Vm>, pools: seq<string>)
    ensures ValidateVmPlan(vms, pools).None? <==>
              && (forall i, j | 0 <= i < j < |vms| :: vms[i].name != vms[j].name)
              && (forall i | 0 <= i < |vms| ::
                    Safe(vms[i].name) && !Reserved(vms[i].name) && (forall k: nat :: !MatchesAt(vms[i].name, k)) &&
                        vms[i].osPool in pools)
  {
    var names := NamesOf(vms);
    FirstUnsafeFound(names);
    FirstUnpooledFound(vms, pools);
    forall i | 0 <= i < |vms| ensures Marked(vms[i].name) <==> exists k: nat :: MatchesAt(vms[i].name, k) {
      MarkedIsThePattern(vms[i].name);
    }
    forall i | 0 <= i < |vms| ensures names[i] == vms[i].name {
    }
  }

  // ---- Volume names --------------------------------------------------------------------------

  function Decimal(n: nat): (s: string)
    ensures s != [] && forall i | 0 <= i < |s| :: Digit(s[i])
  {
    if n < 10 then [('0' as int + n) as char] else Decimal(n / 10) + Decimal(n % 10)
  }

  lemma DecimalSingle(n: nat)
    requires n < 10
    ensures Decimal(n) == [('0' as int + n) as char]
  {
  }

  lemma {:induction false} DecimalInjective(m: nat, n: nat)
    requires Decimal(m) == Decimal(n)
    ensures m == n
    decreases m + n
  {
    var s, t := Decimal(m), Decimal(n);
    assert s[|s| - 1] == ('0' as int + m % 10) as char by {
      DecimalSingle(m % 10);
    }
    assert t[|t| - 1] == ('0' as int + n % 10) as char by {
      DecimalSingle(n % 10);
    }
    assert m % 10 == n % 10;
    if m >= 10 && n >= 10 {
      assert s[..|s| - 1] == Decimal(m / 10) && t[..|t| - 1] == Decimal(n / 10);
      DecimalInjective(m / 10, n / 10);
    }
  }

  const SUFFIX := ".qcow2"

  /** A volume of a run VM: its OS disk, or a numbered data disk. */
  datatype Volume = Volume(vm: string, disk: Option<nat>)

  /** The name without its suffix; `prefix` is what the driver puts before a VM's plan name. */
  function Base(prefix: string, v: Volume): string {
    prefix + v.vm + (if v.disk.Some? then "-data" + Decimal(v.disk.value) else "")
  }

  function VolumeName(prefix: string, v: Volume): string {
    Base(prefix, v) + SUFFIX
  }

  /** The data-disk marker is a marker: the pattern matches where it was appended. */
  lemma DataDiskIsMarked(u: string, i: nat)
    ensures exists k: nat :: MatchesAt(u + "-data" + Decimal(i), k)
  {
    var n := u + "-data" + Decimal(i);
    assert n[|u|] == '-' && n[|u| + 1] == 'd' && n[|u| + 2] == 'a' && n[|u| + 3] == 't' && n[|u| + 4] == 'a';
    assert forall j | |u| + 5 <= j < |n| :: n[j] == Decimal(i)[j - |u| - 5];
    assert MatchesAt(n, |u|);
  }

  /** The digits of a data-disk name start right after its marker. */
  lemma DataDiskStem(u: string, i: nat)
    ensures var n := u + "-data" + Decimal(i);
            && Stem(n) == |u| + 5 && n[..|u|] == u && n[|u| + 5..] == Decimal(i)
  {
    var n := u + "-data" + Decimal(i);
    assert forall k | |u| + 5 <= k < |n| :: n[k] == Decimal(i)[k - |u| - 5];
    assert n[|u| + 4] == 'a';
    StemAfterLetter(n, |u| + 5);
  }

  /** Data-disk names determine the VM and the number. */
  lemma DataDiskInjective(u: string, i: nat, v: string, j: nat)
    requires u + "-data" + Decimal(i) == v + "-data" + Decimal(j)
    ensures u == v && i == j
  {
    DataDiskStem(u, i);
    DataDiskStem(v, j);
    DecimalInjective(i, j);
  }

  /** For every accepted plan, any number of VMs and data disks, and any driver prefix, two
      volumes with the same name are the same volume. */
  lemma VolumeNamesDistinct(vms: seq<Vm>, pools: seq<string>, prefix: string, a: nat, b: nat, d: Option<nat>,
      e: Option<nat>)
    requires ValidateVmPlan(vms, pools).None? && a < |vms| && b < |vms|
    requires VolumeName(prefix, Volume(vms[a].name, d)) == VolumeName(prefix, Volume(vms[b].name, e))
    ensures a == b && d == e
  {
    AcceptedExactly(vms, pools);
    var u, v := Volume(vms[a].name, d), Volume(vms[b].name, e);
    var x, y := VolumeName(prefix, u), VolumeName(prefix, v);
    assert Base(prefix, u) == x[..|x| - |SUFFIX|] && Base(prefix, v) == y[..|y| - |SUFFIX|];
    Unprefixed(prefix, u);
    Unprefixed(prefix, v);
    SameTail(u, v);
  }

  function Tail(v: Volume): string {
    if v.disk.Some? then v.vm + "-data" + Decimal(v.disk.value) else v.vm
  }

  lemma Unprefixed(prefix: string, v: Volume)
    ensures Base(prefix, v)[|prefix|..] == Tail(v)
  {
  }

  lemma SameTail(u: Volume, v: Volume)
    requires Tail(u) == Tail(v) && (forall k: nat :: !MatchesAt(u.vm, k)) && (forall k: nat :: !MatchesAt(v.vm, k))
    ensures u == v
  {
    if u.disk.Some? {
      DataDiskIsMarked(u.vm, u.disk.value);
    }
    if v.disk.Some? {
      DataDiskIsMarked(v.vm, v.disk.value);
    }
    if u.disk.Some? && v.disk.Some? {
      DataDiskInjective(u.vm, u.disk.value, v.vm, v.disk.value);
    }
  }

  /** The rule is needed: without it the OS disk of one VM is the data disk of another. */
  lemma UnmarkedRuleNeeded(prefix: string)
    ensures VolumeName(prefix, Volume("web-data0", None)) == VolumeName(prefix, Volume("web", Some(0)))
    ensures Marked("web-data0") && !Marked("web")
  {
    DecimalSingle(0);
    assert "web" + "-data" + Decimal(0) == "web-data0";
    Unprefixed(prefix, Volume("web", Some(0)));
    assert Base(prefix, Volume("web", Some(0))) == prefix + "web-data0";
    assert prefix + "web-data0" + "" == prefix + "web-data0";
    StemAfterLetter("web-data0", 8);
    StemAfterLetter("web", 3);
  }
}
