/**
 A simple resource provisioner: it hands out one fixed-capacity, fungible
 resource (RAM, bandwidth, CPU, ... the kind does not matter) to individual
 VMs. It keeps the capacity, the amount still available, and the ledger of
 what each VM holds, and informs a VM of its new allocation.
 */
module Provisioners {
  import opened Ledger

  datatype Option<T> = None | Some(value: T)

  datatype Error = IllegalArgument

  datatype Result<T> = Success(value: T) | Failure(error: Error)

  /** The resource a provisioner manages; only its capacity matters here. */
  datatype Resource = Resource(capacity: nat)

  /**
   A VM, identified by reference: two VMs with equal attributes are still two
   VMs. `currentAllocated` is the VM's own record of what it holds of the
   provisioned resource, which the provisioner updates. `id` only mirrors the
   id a VM is created with; the provisioner never reads it.
   */
  class Vm {
    const id: nat
    const declaredCapacity: nat
    var currentAllocated: nat

    constructor (id: nat, declaredCapacity: nat)
      ensures this.id == id && this.declaredCapacity == declaredCapacity
      ensures currentAllocated == 0
    {
      this.id := id;
      this.declaredCapacity := declaredCapacity;
      currentAllocated := 0;
    }
  }

  class Provisioner {
    const capacity: nat
    var available: nat
    var alloc: map<Vm, nat>

    /** The pool never goes negative nor above capacity, and what is missing from it is held by the VMs. */
    ghost predicate Valid()
      reads this
    {
      && available <= capacity
      && EntriesPositive(alloc)
      && capacity - available == Sum(alloc)
    }

    constructor (resource: Resource)
      ensures Valid()
      ensures capacity == resource.capacity && available == capacity && alloc == map[]
    {
      capacity := resource.capacity;
      available := resource.capacity;
      alloc := map[];
    }

    /** The fixed capacity, split between what is free and what the VMs hold. */
    function Capacity(): (r: nat)
      reads this
      requires Valid()
      ensures r == available + Sum(alloc)
    {
      capacity
    }

    /** The amount not held by any VM. */
    function AvailableResource(): (r: nat)
      reads this
      requires Valid()
      ensures r <= capacity
      ensures r + Sum(alloc) == capacity
    {
      available
    }

    /** The total held by all VMs together. */
    function TotalAllocatedResource(): (r: nat)
      reads this
      requires Valid()
      ensures r == Sum(alloc)
      ensures r <= capacity
    {
      capacity - available
    }

    /** What `vm` currently holds, 0 when it holds nothing; never more than all VMs hold together. */
    function AllocatedResourceForVm(vm: Vm): (r: nat)
      reads this
      requires Valid()
      ensures r <= capacity - available
      ensures r > 0 <==> vm in alloc
    {
      AllocationWithinSum(alloc, vm);
      AllocationOf(alloc, vm)
    }

    /**
     Whether `vm` may be set to hold `amount` in total: what it holds already
     is credited back. Exactly the requests after which the ledger still fits
     within the capacity are suitable; the VM's own declared capacity plays no
     part.
     */
    function IsSuitableForVm(vm: Vm, amount: nat): (r: bool)
      reads this
      requires Valid()
      ensures r <==> Sum(Assign(alloc, vm, amount)) <= capacity
      ensures r ==> amount <= capacity
    {
      SumAssign(alloc, vm, amount);
      AllocationWithinSum(alloc, vm);
      available + AllocationOf(alloc, vm) >= amount
    }

    /**
     Sets what `vm` holds to `amount` (replacing, not adding to, what it held)
     when that is suitable, and informs the VM; otherwise changes nothing.
     */
    method AllocateResourceForVm(vm: Vm, amount: nat) returns (ok: bool)
      requires Valid()
      modifies this, vm
      ensures Valid()
      ensures ok == old(IsSuitableForVm(vm, amount))
      ensures ok ==> && alloc == Assign(old(alloc), vm, amount)
                     && available + amount == old(available) + old(AllocationOf(alloc, vm))
                     && vm.currentAllocated == amount
      ensures !ok ==> && alloc == old(alloc)
                      && available == old(available)
                      && vm.currentAllocated == old(vm.currentAllocated)
    {
      ok := IsSuitableForVm(vm, amount);
      if ok {
        var previous := AllocationOf(alloc, vm);
        SumAssign(alloc, vm, amount);
        available := available + previous - amount;
        alloc := Assign(alloc, vm, amount);
        vm.currentAllocated := amount;
      }
    }

    /**
     Gives everything `vm` holds back to the pool, removes its entry and
     informs the VM that it now holds nothing; returns the amount released.
     */
    method DeallocateResourceForVm(vm: Vm) returns (released: nat)
      requires Valid()
      modifies this, vm
      ensures Valid()
      ensures released == old(AllocationOf(alloc, vm))
      ensures alloc == old(alloc) - {vm}
      ensures available == old(available) + released
      ensures vm.currentAllocated == 0
    {
      released := AllocationOf(alloc, vm);
      SumAssign(alloc, vm, 0);
      available := available + released;
      alloc := Assign(alloc, vm, 0);
      vm.currentAllocated := 0;
    }
  }

  /**
   Builds a provisioner for a resource; an absent resource is refused with
   IllegalArgument and no provisioner results.
   */
  method Create(resource: Option<Resource>) returns (r: Result<Provisioner>)
    ensures r.Failure? <==> resource.None?
    ensures r.Failure? ==> r.error == IllegalArgument
    ensures r.Success? ==> && fresh(r.value) && r.value.Valid()
                           && r.value.capacity == resource.value.capacity
                           && r.value.available == r.value.capacity
                           && r.value.TotalAllocatedResource() == 0
                           && r.value.alloc == map[]
  {
    match resource
    case None =>
      r := Failure(IllegalArgument);
    case Some(res) =>
      var p := new Provisioner(res);
      r := Success(p);
  }
}
