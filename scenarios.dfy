/**
 The call sequences of the provisioner's test class, replayed on the model.
 Each method returns the values the corresponding test assertions observe,
 and its ensures clause lists the values they expect. CreateWithoutResource
 covers testCreateProvisioner_null and builds no provisioner; FreshProvisioner
 covers testGetCapacity, testGetAvailableResource and the first assertions of
 testGetTotalAllocatedResource; TotalAllocatedAfterAllocation covers that test
 as a whole. The four remaining methods each cover one test method, making
 its calls in the same order on a fresh provisioner of capacity 1000.
 */
module ProvisionerScenarios {
  import opened Provisioners

  const FullCapacity: nat := 1000
  const HalfCapacity: nat := FullCapacity / 2
  const QuarterCapacity: nat := FullCapacity / 4

  /** A provisioner for a resource of capacity 1000, as every scenario starts with. */
  method NewProvisioner() returns (p: Provisioner)
    ensures fresh(p) && p.Valid()
    ensures p.capacity == FullCapacity && p.available == FullCapacity && p.alloc == map[]
  {
    var r := Create(Some(Resource(FullCapacity)));
    p := r.value;
  }

  /** An absent resource is refused with IllegalArgument. */
  method CreateWithoutResource() returns (refused: bool)
    ensures refused
  {
    var r := Create(None);
    refused := r == Failure(IllegalArgument);
  }

  /** A fresh provisioner reports the capacity it was built with, all of it available, none allocated. */
  method FreshProvisioner() returns (capacity: nat, available: nat, granted: nat)
    ensures capacity == FullCapacity && available == FullCapacity && granted == 0
  {
    var p := NewProvisioner();
    capacity := p.Capacity();
    available := p.AvailableResource();
    granted := p.TotalAllocatedResource();
  }

  /** Allocating half of the capacity to one VM makes the total allocated exactly that half. */
  method TotalAllocatedAfterAllocation() returns (before: nat, after: nat)
    ensures before == 0 && after == HalfCapacity
  {
    var p := NewProvisioner();
    before := p.TotalAllocatedResource();
    var vm := new Vm(1, FullCapacity);
    var _ := p.AllocateResourceForVm(vm, HalfCapacity);
    after := p.TotalAllocatedResource();
  }

  /**
   Suitability on an empty pool ignores the VM's declared capacity (half) and
   fails only past the pool's capacity; after the VM takes half, a quarter is
   still suitable for it.
   */
  method SuitabilityScenario() returns (answers: seq<bool>)
    ensures answers == [true, true, true, false, true]
  {
    var p := NewProvisioner();
    var vm0 := new Vm(0, HalfCapacity);
    answers := [
      p.IsSuitableForVm(vm0, QuarterCapacity),
      p.IsSuitableForVm(vm0, HalfCapacity),
      p.IsSuitableForVm(vm0, FullCapacity),
      p.IsSuitableForVm(vm0, FullCapacity * 2)
    ];
    var _ := p.AllocateResourceForVm(vm0, HalfCapacity);
    answers := answers + [p.IsSuitableForVm(vm0, QuarterCapacity)];
  }

  /**
   vm0 takes half; vm1 is refused the full capacity and nothing changes; vm1
   then takes a quarter, and raising vm1 to half succeeds because its quarter
   is credited back, leaving nothing available.
   */
  method AllocationScenario() returns (suitable: seq<bool>, granted: seq<bool>, available: seq<nat>)
    ensures suitable == [true, false, true, true]
    ensures granted == [true, false, true, true]
    ensures available == [HalfCapacity, HalfCapacity, QuarterCapacity, 0]
  {
    var p := NewProvisioner();
    var vm0 := new Vm(0, HalfCapacity);
    var vm1 := new Vm(1, FullCapacity);

    var s1 := p.IsSuitableForVm(vm0, HalfCapacity);
    var ok1 := p.AllocateResourceForVm(vm0, HalfCapacity);
    var a1 := p.AvailableResource();
    assert s1 && ok1 && a1 == HalfCapacity;

    var s2 := p.IsSuitableForVm(vm1, FullCapacity);
    var ok2 := p.AllocateResourceForVm(vm1, FullCapacity);
    var a2 := p.AvailableResource();
    assert !s2 && !ok2 && a2 == HalfCapacity;

    var s3 := p.IsSuitableForVm(vm1, QuarterCapacity);
    var ok3 := p.AllocateResourceForVm(vm1, QuarterCapacity);
    var a3 := p.AvailableResource();
    assert s3 && ok3 && a3 == QuarterCapacity;

    var s4 := p.IsSuitableForVm(vm1, HalfCapacity);
    var ok4 := p.AllocateResourceForVm(vm1, HalfCapacity);
    var a4 := p.AvailableResource();
    assert s4 && ok4 && a4 == 0;

    suitable, granted, available := [s1, s2, s3, s4], [ok1, ok2, ok3, ok4], [a1, a2, a3, a4];
  }

  /**
   The same sequence observed through each VM's allocation: a refused VM
   still holds nothing, and a second allocation replaces the first (half,
   not three quarters).
   */
  method AllocatedForVmScenario() returns (suitable: seq<bool>, granted: seq<bool>, held: seq<nat>)
    ensures suitable == [true, false, true, true]
    ensures granted == [true, false, true, true]
    ensures held == [HalfCapacity, 0, QuarterCapacity, HalfCapacity]
  {
    var p := NewProvisioner();
    var vm1 := new Vm(0, HalfCapacity);
    var vm2 := new Vm(1, FullCapacity);

    var s1 := p.IsSuitableForVm(vm1, HalfCapacity);
    var ok1 := p.AllocateResourceForVm(vm1, HalfCapacity);
    var h1 := p.AllocatedResourceForVm(vm1);
    assert s1 && ok1 && h1 == HalfCapacity;

    var s2 := p.IsSuitableForVm(vm2, FullCapacity);
    var ok2 := p.AllocateResourceForVm(vm2, FullCapacity);
    var h2 := p.AllocatedResourceForVm(vm2);
    assert !s2 && !ok2 && h2 == 0;

    var s3 := p.IsSuitableForVm(vm2, QuarterCapacity);
    var ok3 := p.AllocateResourceForVm(vm2, QuarterCapacity);
    var h3 := p.AllocatedResourceForVm(vm2);
    assert s3 && ok3 && h3 == QuarterCapacity;

    var s4 := p.IsSuitableForVm(vm2, HalfCapacity);
    var ok4 := p.AllocateResourceForVm(vm2, HalfCapacity);
    var h4 := p.AllocatedResourceForVm(vm2);
    assert s4 && ok4 && h4 == HalfCapacity;

    suitable, granted, held := [s1, s2, s3, s4], [ok1, ok2, ok3, ok4], [h1, h2, h3, h4];
  }

  /**
   Deallocation gives a VM's amount back so it can be allocated again;
   deallocating every VM restores the whole capacity, and each VM then
   records that it holds nothing.
   */
  method DeallocationScenario()
    returns (heldBefore: seq<nat>, suitable: seq<bool>, granted: seq<bool>, available: seq<nat>, heldAfter: seq<nat>)
    ensures heldBefore == [0, 0]
    ensures suitable == [true, true, true]
    ensures granted == [true, true, true]
    ensures available == [HalfCapacity, FullCapacity, 0, FullCapacity]
    ensures heldAfter == [0, 0]
  {
    var p := NewProvisioner();
    var vm1 := new Vm(0, HalfCapacity);
    var vm2 := new Vm(1, HalfCapacity);
    heldBefore := [vm1.currentAllocated, vm2.currentAllocated];

    var s1 := p.IsSuitableForVm(vm1, HalfCapacity);
    var ok1 := p.AllocateResourceForVm(vm1, HalfCapacity);
    var a1 := p.AvailableResource();
    assert s1 && ok1 && a1 == HalfCapacity;

    var _ := p.DeallocateResourceForVm(vm1);
    var a2 := p.AvailableResource();
    assert a2 == FullCapacity && p.alloc == map[];

    var s2 := p.IsSuitableForVm(vm1, HalfCapacity);
    var ok2 := p.AllocateResourceForVm(vm1, HalfCapacity);
    assert s2 && ok2 && p.available == HalfCapacity;
    var s3 := p.IsSuitableForVm(vm2, HalfCapacity);
    var ok3 := p.AllocateResourceForVm(vm2, HalfCapacity);
    var a3 := p.AvailableResource();
    assert s3 && ok3 && a3 == 0;

    var _ := p.DeallocateResourceForVm(vm1);
    assert p.available == HalfCapacity;
    var _ := p.DeallocateResourceForVm(vm2);
    var a4 := p.AvailableResource();
    assert a4 == FullCapacity;

    suitable, granted, available := [s1, s2, s3], [ok1, ok2, ok3], [a1, a2, a3, a4];
    heldAfter := [vm1.currentAllocated, vm2.currentAllocated];
  }
}
