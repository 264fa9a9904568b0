# ResourceProvisionerSimple, modelled in Dafny

CloudSim Plus uses a resource provisioner to hand out one fixed-capacity, fungible
resource to individual VMs. The resource can be RAM, bandwidth or CPU; the
provisioner does not care which. This project models `ResourceProvisionerSimple`.
The behaviour modelled here is the one pinned down by the assertions of
`ResourceProvisionerSimpleTest`, the provisioner's JUnit test class.

- `ledger.dfy`, module `Ledger`: the per-VM allocation map. It defines the
  amount a VM holds (0 without an entry), the total `Sum` of all holdings, and
  `Assign`, which replaces a VM's holding. Lemmas relate `Sum` to removal and
  replacement.
- `provisioner.dfy`, module `Provisioners`: the `Provisioner` class.
  - Its fields are `capacity` (constant), `available` and `alloc` (a map from
    `Vm` references to amounts).
  - Its invariant `Valid()` says `0 <= available <= capacity`,
    `capacity - available == Sum(alloc)`, and every entry is positive.
  - It has the queries `Capacity`, `AvailableResource`, `TotalAllocatedResource`,
    `AllocatedResourceForVm` and `IsSuitableForVm`.
  - It has the state-changing methods `AllocateResourceForVm` and
    `DeallocateResourceForVm`.
  - `Create` builds a provisioner from an optional resource and refuses an
    absent one.
  - A VM is a class, so it is identified by reference. Its `currentAllocated`
    field is the VM's own record of what it holds, which the provisioner updates.
- `scenarios.dfy`, module `ProvisionerScenarios`: the call sequences of the
  test class, replayed on the model. Each method's ensures clause lists the
  values that the corresponding assertions expect.
  - `CreateWithoutResource` covers `testCreateProvisioner_null`; it builds no
    provisioner.
  - `FreshProvisioner` covers `testGetCapacity`, `testGetAvailableResource`
    and lines 69-71 of `testGetTotalAllocatedResource`.
  - `TotalAllocatedAfterAllocation` covers lines 69-76 of
    `testGetTotalAllocatedResource`.
  - `SuitabilityScenario`, `AllocationScenario`, `AllocatedForVmScenario` and
    `DeallocationScenario` cover `testIsSuitableForVm`,
    `testAllocateResourceForVm`, `testGetAllocatedResourceForVm` and
    `testDeallocateResourceForVm`, making the same calls in the same order on
    a fresh provisioner of capacity 1000.

## Model

| member | source | states |
|---|---|---|
| `Ledger.Assign` | cloudsim-plus/src/test/java/org/cloudbus/cloudsim/provisioners/ResourceProvisionerSimpleTest.java:139-145 | Allocation replaces and does not accumulate: afterwards the VM holds exactly the new amount, every other entry is unchanged, and entries stay positive. |
| `Ledger.SumRemove` | cloudsim-plus/src/test/java/org/cloudbus/cloudsim/provisioners/ResourceProvisionerSimpleTest.java:160-161 | Removing one VM's entry lowers the total held by exactly that VM's amount. |
| `Ledger.AllocationWithinSum` | cloudsim-plus/src/test/java/org/cloudbus/cloudsim/provisioners/ResourceProvisionerSimpleTest.java:126-146 | No VM holds more than all VMs hold together. |
| `Ledger.SumAssign` | cloudsim-plus/src/test/java/org/cloudbus/cloudsim/provisioners/ResourceProvisionerSimpleTest.java:117-123 | Replacing a VM's holding changes the total by the difference between the new and the old amount. |
| `Ledger.AssignReplaces` | cloudsim-plus/src/test/java/org/cloudbus/cloudsim/provisioners/ResourceProvisionerSimpleTest.java:139-145 | Two allocations to the same VM leave the ledger as if only the second had happened. |
| `Provisioners.Provisioner.constructor` | cloudsim-plus/src/test/java/org/cloudbus/cloudsim/provisioners/ResourceProvisionerSimpleTest.java:44-46 | A provisioner over a resource of capacity C starts with capacity C, all of it available, and an empty ledger. |
| `Provisioners.Create` | cloudsim-plus/src/test/java/org/cloudbus/cloudsim/provisioners/ResourceProvisionerSimpleTest.java:48-55 | An absent resource fails with IllegalArgument and yields no provisioner. A present resource yields a fresh, valid provisioner with its capacity, everything available and nothing allocated. |
| `Provisioners.Provisioner.Capacity` | cloudsim-plus/src/test/java/org/cloudbus/cloudsim/provisioners/ResourceProvisionerSimpleTest.java:57-60 | The capacity equals the free amount plus everything the VMs hold. |
| `Provisioners.Provisioner.AvailableResource` | cloudsim-plus/src/test/java/org/cloudbus/cloudsim/provisioners/ResourceProvisionerSimpleTest.java:62-65 | The free amount is at most the capacity and is what the VMs do not hold. |
| `Provisioners.Provisioner.TotalAllocatedResource` | cloudsim-plus/src/test/java/org/cloudbus/cloudsim/provisioners/ResourceProvisionerSimpleTest.java:67-77 | The total allocated is the sum of the per-VM allocations and never exceeds the capacity. |
| `Provisioners.Provisioner.AllocatedResourceForVm` | cloudsim-plus/src/test/java/org/cloudbus/cloudsim/provisioners/ResourceProvisionerSimpleTest.java:126-146 | A VM's allocation is positive exactly when it has a ledger entry, so a VM that never got anything reads 0. It is bounded by the total allocated. |
| `Provisioners.Provisioner.IsSuitableForVm` | cloudsim-plus/src/test/java/org/cloudbus/cloudsim/provisioners/ResourceProvisionerSimpleTest.java:92-102 | A request is suitable exactly when the ledger, with the VM's holding replaced by the request, still fits within the capacity. The VM's own holding is credited back and its declared capacity plays no part. A suitable request never exceeds the capacity. |
| `Provisioners.Provisioner.AllocateResourceForVm` | cloudsim-plus/src/test/java/org/cloudbus/cloudsim/provisioners/ResourceProvisionerSimpleTest.java:104-124 | Succeeds exactly when the request is suitable. On success the VM's entry is replaced by the amount, every other entry is untouched, the free amount falls by new minus old, and the invariant holds. On failure nothing changes. |
| `Provisioners.Provisioner.DeallocateResourceForVm` | cloudsim-plus/src/test/java/org/cloudbus/cloudsim/provisioners/ResourceProvisionerSimpleTest.java:148-174 | Removes the VM's entry, raises the free amount by exactly what the VM held, keeps the invariant, and sets the VM's own record of its allocation to 0. |
| `ProvisionerScenarios.CreateWithoutResource` | cloudsim-plus/src/test/java/org/cloudbus/cloudsim/provisioners/ResourceProvisionerSimpleTest.java:52-55 | Creating a provisioner without a resource is refused with IllegalArgument. |
| `ProvisionerScenarios.FreshProvisioner` | cloudsim-plus/src/test/java/org/cloudbus/cloudsim/provisioners/ResourceProvisionerSimpleTest.java:57-71 | A fresh provisioner reports capacity 1000 and 1000 available, and a total allocated of 0. |
| `ProvisionerScenarios.TotalAllocatedAfterAllocation` | cloudsim-plus/src/test/java/org/cloudbus/cloudsim/provisioners/ResourceProvisionerSimpleTest.java:67-77 | After half the capacity is allocated to one VM, the total allocated is that half. |
| `ProvisionerScenarios.SuitabilityScenario` | cloudsim-plus/src/test/java/org/cloudbus/cloudsim/provisioners/ResourceProvisionerSimpleTest.java:92-102 | On an empty pool, a quarter, a half and the full capacity are suitable and twice the capacity is not. This holds even for a VM declared with half. Once that VM holds half, a quarter is still suitable for it. |
| `ProvisionerScenarios.AllocationScenario` | cloudsim-plus/src/test/java/org/cloudbus/cloudsim/provisioners/ResourceProvisionerSimpleTest.java:104-124 | The suitability answers, allocation results and available amounts (500, 500, 250, 0) are the ones the test asserts, including the refused request that changes nothing. |
| `ProvisionerScenarios.AllocatedForVmScenario` | cloudsim-plus/src/test/java/org/cloudbus/cloudsim/provisioners/ResourceProvisionerSimpleTest.java:126-146 | The per-VM allocations (500, 0, 250, 500) are the ones the test asserts. The refused VM holds 0, and the second allocation replaces the first. |
| `ProvisionerScenarios.DeallocationScenario` | cloudsim-plus/src/test/java/org/cloudbus/cloudsim/provisioners/ResourceProvisionerSimpleTest.java:148-174 | Each VM's own record starts at 0. The available amounts are 500, 1000, 0 and 1000 as the test asserts, with every request suitable and granted. Each VM's record ends at 0. |

## Left out

- The source of `ResourceProvisionerSimple`, `Ram`, `ResourceManageable` and `VmSimple` is not part of this model. The behaviour is taken from the test's assertions, and the resource is reduced to its capacity (`Resource`).
- Java `long` arithmetic: amounts and capacities are unbounded natural numbers. Negative requests and overflow are not modelled.
- A VM's PEs, MIPS, cloudlet scheduler, bandwidth and storage size (`createVm`) are test setup and play no part in provisioning. Only an id and a declared capacity are kept.
- The updates the Java provisioner makes to the shared `ResourceManageable` object (its own allocated/available counters) are not modelled. The pool lives inside the provisioner.
- Modelling choices where the test asserts nothing:
  - `allocate(vm, 0)` removes the VM's entry, so that entries stay positive.
  - A successful allocation also sets the VM's own record to the new amount. The test only reads that record before any allocation and after deallocation.
  - Deallocation returns the amount it released. The test ignores the result.
- The discrete-event simulation engine, placement policies and any multithreading.
