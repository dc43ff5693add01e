# cpufreq core, modelled in Dafny

This project models the core of the Linux CPU frequency scaling framework, `drivers/cpufreq/cpufreq.c`, as it appears in this kernel tree. The core keeps one platform driver, a list of governors, one `struct cpufreq_policy` per group of CPUs that share a clock, and three per-CPU tables:

- `cpufreq_cpu_data`: each CPU's policy.
- `cpufreq_policy_cpu`: the CPU that owns that policy.
- `cpufreq_policy_save`: the governor name and user limits kept for a CPU while it is offline.

The core makes calls in both directions. It calls the driver (`init`, `verify`, `setpolicy`, `target`, `get`, `exit`) and the governors (`START`, `STOP`, `LIMITS`). In turn, the CPU hotplug interface calls it with `cpufreq_add_dev` and `cpufreq_remove_dev`.

Layout:

- `types.dfy` (`CpufreqTypes`): the data model.
  - `Policy`, `Driver`, `Governor`, `Snapshot` and `Core`, the whole state of the core.
  - `Env`, which carries everything outside the core as parameters: the online mask, the PM-QoS requests, module reference outcomes, and the driver and governor callbacks.
  - The invariant `Inv`, and cpumask weight and first (`CountIn`, `FirstFrom`).
- `names.dfy` (`GovernorNames`): `__find_governor` and its case-insensitive, length-bounded comparison; removal from the list.
- `limits.dfy` (`PolicyLimits`): the PM-QoS clamp of `__cpufreq_set_policy`.
- `registry_spec.dfy` (`RegistrySpec`): `__cpufreq_cpu_get`/`put`, the policy rwsem lock and unlock, `cpufreq_parse_governor`, and governor registration and unregistration.
- `governor_spec.dfy` (`GovernorSpec`): `__cpufreq_governor`, the governor switch, `__cpufreq_set_policy` and `__cpufreq_driver_target`. These are stated on one policy value, the governor module reference counts and a trace of the calls made.
- `transition_spec.dfy` (`TransitionSpec`): `cpufreq_notify_transition`, `cpufreq_out_of_sync` and `__cpufreq_get`.
- `policy_spec.dfy` (`PolicySpec`): the governor and set-policy operations lifted to the whole state, `cpufreq_update_policy`, and the scaling_min_freq and scaling_max_freq writes of `store_one`.
- `add_spec.dfy` (`AddSpec`): `cpufreq_add_dev`, `cpufreq_add_dev_policy`, `cpufreq_add_dev_interface` and `cpufreq_add_dev_symlink` as functions on `Core`, with their lemmas.
- `remove_spec.dfy` (`RemoveSpec`): `__cpufreq_remove_dev` and `cpufreq_remove_dev` the same way.
- `driver_spec.dfy` (`DriverSpec`): `cpufreq_register_driver` and `cpufreq_unregister_driver`.
- `core_ops.dfy` (`CoreOps`), `hotplug.dfy` (`Hotplug`) and `registration.dfy` (`Registration`): the same routines as imperative procedures. They contain the source's loops (`for_each_cpu`, `for_each_online_cpu`, the list walk, the CPU scan of driver registration), and each is proved to compute its specification function.
- `core.dfy` (`Cpufreq`): the class `CpufreqCore`.
  - Its fields are the core's global and per-CPU state.
  - Each of its methods updates those fields in place.
  - Each method is proved to leave `Abs()` equal to the specification function applied to the old state, and to keep `Valid()`.

Error codes are the kernel's negated errno values: `EBUSY` 16, `EFAULT` 14, `ENODEV` 19, `EINVAL` 22. `CPUFREQ_NAME_LEN` is 16.

The trace: the core's calls into the driver, the governors and the transition notifier are recorded as `Event`s in `Core.trace`. For each single call of __cpufreq_governor or __cpufreq_set_policy, the governor module references (`govRefs`) it leaves are proved to be what the events it appends to the trace account for (`GovernorSpec.GovernorCallAccounted`, `GovernorSpec.SetPolicyAccounted`, and on the whole state `PolicySpec.GovernorCoreAccounted`, `PolicySpec.SetPolicyCoreAccounted`). This is not proved for whole hotplug or registration sequences.

## Model

| member | source | states |
|---|---|---|
| CpufreqTypes.CountIn | drivers/cpufreq/cpufreq.c:1510 | cpumask_weight over the first nr CPUs is zero exactly when no CPU of the mask lies in the range |
| CpufreqTypes.FirstFrom | drivers/cpufreq/cpufreq.c:1576 | cpumask_first yields a member of the mask below nr with no member before it, or nr when there is none |
| GovernorNames.Folded | drivers/cpufreq/cpufreq.c:375 | strnicmp compares at most CPUFREQ_NAME_LEN characters, each lower-cased |
| GovernorNames.Lower | drivers/cpufreq/cpufreq.c:375 | tolower adds 32 to an upper-case letter (ASCII A-Z and the Latin-1 capitals 192-214 and 216-222) and leaves every other character alone; its result is never upper case |
| GovernorNames.Find | drivers/cpufreq/cpufreq.c:370-379 | the result is None exactly when no governor's name matches; otherwise it is the first matching governor in list order |
| GovernorNames.FindRegistered | drivers/cpufreq/cpufreq.c:370-379 | with names unique up to case, every registered governor is found by its own name |
| GovernorNames.Without | drivers/cpufreq/cpufreq.c:2230-2232 | list_del leaves exactly the other governors |
| GovernorNames.WithoutUnique | drivers/cpufreq/cpufreq.c:2230-2232 | removing a governor keeps the names unique up to case |
| PolicyLimits.Clamp | drivers/cpufreq/cpufreq.c:2278-2301 | the QoS clamp only narrows the request and stays within the QoS bounds; the clamped limits miss the user range exactly when the request itself misses it |
| PolicyLimits.ClampHonoursQos | drivers/cpufreq/cpufreq.c:2282-2292 | when both QoS requests lie inside the user range, the limits are max(pmin, qmin) and min(pmax, qmax) |
| RegistrySpec.CpuGet | drivers/cpufreq/cpufreq.c:187-223 | a policy is returned exactly for an in-range CPU with a policy, a driver and its module reference; that case takes one driver reference and, outside sysfs, one policy reference; every failure changes nothing |
| RegistrySpec.CpuPut | drivers/cpufreq/cpufreq.c:236-241 | drops one driver reference and, outside sysfs, one policy reference; nothing else changes |
| RegistrySpec.GetPutBalanced | drivers/cpufreq/cpufreq.c:187-241 | a successful get followed by the matching put restores the state exactly |
| RegistrySpec.Lock | drivers/cpufreq/cpufreq.c:81-98 | succeeds exactly for an online CPU and then holds the owner's rwsem; an offline CPU gets -1 and nothing is held |
| RegistrySpec.Unlock | drivers/cpufreq/cpufreq.c:100-112 | releases one hold of the owner's rwsem |
| RegistrySpec.LockUnlockBalanced | drivers/cpufreq/cpufreq.c:81-112 | a lock and its unlock leave the lock table as it was |
| RegistrySpec.ParseGovernor | drivers/cpufreq/cpufreq.c:384-428 | 0 exactly when something was parsed, else -EINVAL; no driver is -EINVAL; a setpolicy driver succeeds exactly for "performance" or "powersave" up to case, and yields that mode; a target driver succeeds exactly when a registered governor matches the name |
| RegistrySpec.RegisterGovernor | drivers/cpufreq/cpufreq.c:2182-2202 | 0 exactly for a non-null governor on an enabled core whose name is new up to case, which is then at the head of the list; a clash is -EBUSY; failures change nothing; names stay unique |
| RegistrySpec.ForgetSaved | drivers/cpufreq/cpufreq.c:2218-2227 | every offline CPU below nr has its saved limits zeroed and forgets its saved governor name when it is this governor's; all other saved entries are kept |
| RegistrySpec.UnregisterGovernor | drivers/cpufreq/cpufreq.c:2206-2234 | a null governor or a disabled core changes nothing; otherwise the offline CPUs' saved entries are cleared and the governor is removed from the list; names stay unique |
| GovernorSpec.GovernorCall | drivers/cpufreq/cpufreq.c:2134-2179 | a too-slow governor falls back to the compile-time governor or answers -EINVAL; at most one governor call is made; a call that is not made changes no reference and answers non-zero; only the governor field of the policy can change |
| GovernorSpec.StartStopBalanced | drivers/cpufreq/cpufreq.c:2171-2176 | a successful START keeps one module reference, and the matching successful STOP gives it back |
| GovernorSpec.GovernorCallAccounted | drivers/cpufreq/cpufreq.c:2164-2176 | the references left by one governor call are exactly those its trace accounts for |
| GovernorSpec.DriverTarget | drivers/cpufreq/cpufreq.c:2026-2085 | -ENODEV when disabled; 0 without a call when the target is the current frequency; the driver's `target` is called exactly when the owner is online and the driver has `target`, and its answer is returned; otherwise -EINVAL |
| GovernorSpec.Admit | drivers/cpufreq/cpufreq.c:2278-2320 | a request outside the user range, before or after the QoS clamp, is -EINVAL with the clamped candidate; otherwise `verify` runs on the clamped candidate, a failure is returned with what `verify` left, and on success the notifier's adjustment is verified once more and that answer and policy are returned; 0 means both `verify` calls accepted |
| GovernorSpec.SetPolicy | drivers/cpufreq/cpufreq.c:2271-2397 | a rejected request changes nothing and calls no one; an admitted one commits the verified limits; a setpolicy driver gets the mode and one `setpolicy` call; an unchanged governor gets only LIMITS and keeps its references; a changed governor goes through SwitchGovernor (STOP the old, START the new, on failure restart the old and answer -EINVAL), whose answer, policy, references and calls are returned; the caller's candidate keeps its requested limits; `exit` is never called |
| GovernorSpec.StopOld | drivers/cpufreq/cpufreq.c:2354-2356 | STOP is sent exactly when there is an old governor, and is the only call made |
| GovernorSpec.SwitchGovernor | drivers/cpufreq/cpufreq.c:2348-2384 | 0 exactly when the new governor's START succeeds, and the new (or fallback) governor is installed; on failure the old governor is back and -EINVAL is answered |
| GovernorSpec.SwitchGovernorAccounted | drivers/cpufreq/cpufreq.c:2348-2384 | the references left by a switch are exactly those its trace accounts for |
| GovernorSpec.SetPolicyAccounted | drivers/cpufreq/cpufreq.c:2343-2385 | the references left by __cpufreq_set_policy are exactly those its trace accounts for |
| GovernorSpec.Restart | drivers/cpufreq/cpufreq.c:1479-1484 | the policy gets its new mask, and a governed policy whose module is available sees STOP, START, LIMITS in that order; no governor means -EFAULT and no call |
| TransitionSpec.NotifyTransition | drivers/cpufreq/cpufreq.c:305-350 | the flags are the driver's; PRECHANGE corrects the old frequency to the owner's `cur` unless CONST_LOOPS is set; POSTCHANGE sets the owner's `cur` to the new frequency; both are recorded, in order |
| TransitionSpec.OutOfSync | drivers/cpufreq/cpufreq.c:1626-1639 | exactly two transitions are appended, PRECHANGE then POSTCHANGE with the new frequency; the owning policy's `cur` becomes the new frequency |
| TransitionSpec.OutOfSyncReportsCur | drivers/cpufreq/cpufreq.c:1626-1639 | called with the policy's own `cur` as the old frequency, the notification carries that old frequency unchanged |
| TransitionSpec.Get | drivers/cpufreq/cpufreq.c:1704-1725 | answers the driver's reading (0 without `get`); the state changes only when the reading disagrees with `cur`, and then the owner's `cur` is resynchronised |
| PolicySpec.GovernorCore | drivers/cpufreq/cpufreq.c:2134-2179 | on the whole state, a governor call changes only the policy's governor, the governor references and the trace |
| PolicySpec.GovernorCoreAccounted | drivers/cpufreq/cpufreq.c:2164-2176 | on the whole state, the trace only grows, and the references a governor call leaves are those its appended events account for |
| PolicySpec.SetPolicyCore | drivers/cpufreq/cpufreq.c:2271-2397 | on the whole state, only the one policy, the governor references and the trace change; user limits and references are kept |
| PolicySpec.SetPolicyCoreAccounted | drivers/cpufreq/cpufreq.c:2343-2385 | the same for __cpufreq_set_policy on the whole state |
| PolicySpec.UserRequest | drivers/cpufreq/cpufreq.c:2423-2427 | the request is the policy with the user's min, max, mode and governor |
| PolicySpec.Resync | drivers/cpufreq/cpufreq.c:2431-2441 | without `get` nothing changes; an uninitialised `cur` is seeded from the reading; a differing `cur` is repaired by OutOfSync; an equal one changes nothing |
| PolicySpec.Reapply | drivers/cpufreq/cpufreq.c:2423-2443 | the locked part of the update keeps locks, references, owners and the policy's user limits |
| PolicySpec.UpdatePolicy | drivers/cpufreq/cpufreq.c:2406-2451 | without a policy the answer is -ENODEV and nothing changes |
| PolicySpec.UserLimitsInRange | drivers/cpufreq/cpufreq.c:2282-2301 | a request carrying the policy's own consistent user limits passes the range checks: Admit accepts it exactly when both `verify` calls do |
| PolicySpec.ReapplyCommits | drivers/cpufreq/cpufreq.c:2423-2443 | the update sends the user request through __cpufreq_set_policy: the answer, policy, references and appended calls are SetPolicy's on the repaired state; a request Admit turns down leaves the repaired state, an admitted one commits Admit's limits |
| PolicySpec.UpdatePolicyReapplies | drivers/cpufreq/cpufreq.c:2406-2451 | on an online CPU with a policy, cpufreq_update_policy answers what Reapply answers under the lock and leaves the policy, references and trace Reapply leaves, with the policy's reference count restored |
| PolicySpec.StoreLimit | drivers/cpufreq/cpufreq.c:472-509 | store_scaling_min_freq/max_freq: no policy or an unparsable value is -EINVAL with nothing changed; otherwise no lock, driver reference or mapping changes and the invariant holds |
| PolicySpec.StoreChecked | drivers/cpufreq/cpufreq.c:502-508 | the end of store_one keeps the invariant, the locks, the driver references and the mappings |
| PolicySpec.StoreLimitWritesUser | drivers/cpufreq/cpufreq.c:486-508 | after a write, the user limits are those `verify` left (even when it failed); the policy, references and calls are SetPolicy's on the policy with those user limits; the answer is set-policy's error or `count` |
| PolicySpec.UpdatePolicyOffline | drivers/cpufreq/cpufreq.c:2417-2420 | an offline CPU cannot take the lock: -EINVAL with the state restored exactly |
| PolicySpec.UpdatePolicyBalanced | drivers/cpufreq/cpufreq.c:2406-2451 | an update of an online CPU returns every lock and reference it took and leaves the policy's user settings as they were |
| PolicySpec.ReapplySeedsCur | drivers/cpufreq/cpufreq.c:2433-2435 | an uninitialised `cur` is seeded from the driver without any transition notification |
| PolicySpec.UpdatePolicySeedsCur | drivers/cpufreq/cpufreq.c:2406-2451 | the same holds for the whole update |
| AddSpec.Sibling | drivers/cpufreq/cpufreq.c:1360-1372 | the first online CPU whose governed policy lists `cpu` as related, or nr; no earlier online CPU qualifies |
| AddSpec.Provisional | drivers/cpufreq/cpufreq.c:1348-1372 | the fresh policy is owned by `cpu`, spans only `cpu`, and inherits the sibling's governor, or else the default governor |
| AddSpec.Initialised | drivers/cpufreq/cpufreq.c:1376-1391 | after `init` the mask is the online part of init's mask, the user limits equal the limits, and util is 0 |
| AddSpec.Restore | drivers/cpufreq/cpufreq.c:1108-1126 | the saved governor is reinstated if still registered; non-zero saved limits replace both the limits and the user limits; nothing else changes |
| AddSpec.Managed | drivers/cpufreq/cpufreq.c:1129-1141 | the first other CPU of the mask that already has a policy, or nr |
| AddSpec.Joined | drivers/cpufreq/cpufreq.c:1140-1182 | the merge maps `cpu` to the managed CPU's policy and keeps the invariant |
| AddSpec.Bound | drivers/cpufreq/cpufreq.c:1262-1267 | every online CPU of the mask is mapped to the policy with its owner; no other CPU's mapping changes |
| AddSpec.Linked | drivers/cpufreq/cpufreq.c:1193-1219 | the symlink pass changes only reference counts |
| AddSpec.Applied | drivers/cpufreq/cpufreq.c:1274-1287 | the user governor and mode are copied from what __cpufreq_set_policy left |
| AddSpec.AppliedKeeps | drivers/cpufreq/cpufreq.c:1274-1287 | that step keeps the invariant and maps no CPU |
| AddSpec.Installed | drivers/cpufreq/cpufreq.c:1338-1352 | the new policy is allocated, live and owned by `cpu` |
| AddSpec.Below | drivers/cpufreq/cpufreq.c:1262 | for_each_cpu visits exactly the mask's CPUs below nr |
| AddSpec.DevPolicyKeeps | drivers/cpufreq/cpufreq.c:1100-1189 | cpufreq_add_dev_policy keeps the invariant |
| AddSpec.DevPolicyMaps | drivers/cpufreq/cpufreq.c:1100-1189 | cpufreq_add_dev_policy maps no CPU other than `cpu` |
| AddSpec.DevPolicyJoins | drivers/cpufreq/cpufreq.c:1108-1188 | answers 1 exactly when another CPU of the restored mask has a policy; then `cpu` joins that policy with the owner's CPU, its mask becomes the online part of ours, one driver reference is taken, no policy is freed or added, and our provisional policy is handed to `exit` as the last call; otherwise 0 with only the restore applied |
| AddSpec.DevInterfaceKeeps | drivers/cpufreq/cpufreq.c:1221-1294 | cpufreq_add_dev_interface keeps the invariant and maps CPUs only to `cpu`'s policy |
| AddSpec.DevInterfaceMaps | drivers/cpufreq/cpufreq.c:1262-1281 | the per-CPU tables after the interface are those of the binding pass; the policy's mask is untouched and the user governor equals the governor |
| AddSpec.DevInterfaceBinds | drivers/cpufreq/cpufreq.c:1262-1267 | the online CPUs of the mask are bound to the policy with owner `cpu`; every other CPU's entries are unchanged |
| AddSpec.DevInterfaceExits | drivers/cpufreq/cpufreq.c:1277-1288 | the trace only grows; when the initial set-policy fails and the driver has `exit`, `exit` on this policy is the last call; otherwise no `exit` is called |
| AddSpec.FinishKeeps | drivers/cpufreq/cpufreq.c:1396-1424 | the tail of cpufreq_add_dev keeps the invariant and the saved entries |
| AddSpec.SetupKeeps | drivers/cpufreq/cpufreq.c:1382-1424 | the part after `init` keeps the invariant and the saved entries |
| AddSpec.FreshKeeps | drivers/cpufreq/cpufreq.c:1337-1437 | the part from the allocation keeps the invariant and the saved entries |
| AddSpec.AddDevKeeps | drivers/cpufreq/cpufreq.c:1306-1438 | cpufreq_add_dev keeps the invariant, touches no other CPU's policy and keeps the saved entries |
| AddSpec.FinishPlaces | drivers/cpufreq/cpufreq.c:1405-1422 | on failure no CPU of the mask below nr keeps a policy, `exit` was the last call and the new policy is freed; on success the policy stays live and every online CPU of its mask is mapped to it |
| AddSpec.SetupPlaces | drivers/cpufreq/cpufreq.c:1396-1428 | after a successful `init`, three exclusive outcomes: another CPU of the restored mask has a policy, so `cpu` joins it, 0 is answered and the new policy goes to `exit` and is freed; or the new policy stays with its online CPUs bound to it; or its set-policy fails, its mask is unbound and it goes to `exit` and is freed |
| AddSpec.FreshPlaces | drivers/cpufreq/cpufreq.c:1337-1437 | the outcomes of AddDevPlaces, from the allocated policy on |
| AddSpec.AddDevPlaces | drivers/cpufreq/cpufreq.c:1306-1438 | init's error is returned on failure with no CPU bound and no policy added; any failure leaves `cpu` unmapped; after a successful `init`, the three outcomes of SetupPlaces on the new policy, which is the only policy that can be added |
| AddSpec.SetpolicyUngoverned | drivers/cpufreq/cpufreq.c:1276 | with a setpolicy driver the interface leaves the new policy without a governor |
| AddSpec.SetupUngoverned | drivers/cpufreq/cpufreq.c:1276 | the same after `init`, whenever `cpu` ends up on the new policy |
| AddSpec.AddDevUngoverned | drivers/cpufreq/cpufreq.c:1306-1438 | with a setpolicy driver, a CPU that cpufreq_add_dev puts on a new policy leaves it with no governor |
| RemoveSpec.Saved | drivers/cpufreq/cpufreq.c:1497-1500 | the saved entry holds the governor's name (empty for none) and the user limits |
| RemoveSpec.SavedAsWritten | drivers/cpufreq/cpufreq.c:1497-1500 | the source's save, defined only when there is a governor to name |
| RemoveSpec.Unmapped | drivers/cpufreq/cpufreq.c:1510-1516 | the given CPUs lose their policy and nothing else changes |
| RemoveSpec.Unlinked | drivers/cpufreq/cpufreq.c:1477-1491 | a non-owner leaves: `cpu` loses its mapping and leaves the policy's mask, one policy reference and one driver reference are dropped, the owners and saved entries and every other policy are kept |
| RemoveSpec.Others | drivers/cpufreq/cpufreq.c:1510-1516 | the other CPUs below nr of a shared mask, none for a single-CPU one |
| RemoveSpec.Released | drivers/cpufreq/cpufreq.c:1496-1541 | the owner and the other CPUs below nr are unmapped and all of them save the policy's snapshot; one driver and one policy reference are dropped per other CPU; nothing else changes |
| RemoveSpec.Stopped | drivers/cpufreq/cpufreq.c:1547-1566 | STOP for a target driver and `exit` leave the tables and saved entries alone |
| RemoveSpec.Shrunk | drivers/cpufreq/cpufreq.c:1575 | clearing `cpu` from the mask changes no table |
| RemoveSpec.Handover | drivers/cpufreq/cpufreq.c:1496-1575 | the owner is unmapped and the snapshot is saved for it and for every other CPU of the mask |
| RemoveSpec.FirstOther | drivers/cpufreq/cpufreq.c:1573-1576 | a mask of weight above one still has a first CPU below nr after `cpu` is cleared |
| RemoveSpec.Readd | drivers/cpufreq/cpufreq.c:1573-1576 | the first sibling's cpufreq_add_dev keeps the invariant |
| RemoveSpec.ReaddKeeps | drivers/cpufreq/cpufreq.c:1573-1580 | the re-add keeps the invariant and the saved entries, and afterwards `cpu` owns no policy; so the nested __cpufreq_remove_dev cannot take the owner's path again: it answers -EINVAL when `cpu` is unmapped, or unlinks it as a non-owner |
| RemoveSpec.NonOwnerRemoved | drivers/cpufreq/cpufreq.c:1462-1491 | for a CPU that owns no policy: -EINVAL with nothing changed when it has none; otherwise 0, it loses its mapping, leaves the policy's mask and drops one driver reference; saved entries are kept |
| RemoveSpec.HandedOver | drivers/cpufreq/cpufreq.c:1573-1588 | the owner's removal of a shared policy answers 0, unmaps `cpu`, keeps the invariant and the hand-over's saved entries, and frees the old policy |
| RemoveSpec.RemoveDevKeeps | drivers/cpufreq/cpufreq.c:1448-1589 | __cpufreq_remove_dev keeps the invariant and leaves `cpu` without a policy |
| RemoveSpec.RemoveDevSaves | drivers/cpufreq/cpufreq.c:1496-1534 | when the owner leaves, its saved entry and that of every other CPU of the mask below nr hold the policy's governor name and user limits |
| RemoveSpec.SavedRestores | drivers/cpufreq/cpufreq.c:1108-1124 | the save round-trips: restoring a saved entry reinstates the governor, and the user limits when non-zero |
| DriverSpec.Flagged | drivers/cpufreq/cpufreq.c:2579-2580 | a setpolicy driver gains CONST_LOOPS; handle, stickiness and callbacks are kept |
| DriverSpec.AddFrom | drivers/cpufreq/cpufreq.c:2590 | cpufreq_add_dev for every CPU keeps the invariant, the driver slot and the governor list |
| DriverSpec.RemoveFrom | drivers/cpufreq/cpufreq.c:2618 | cpufreq_remove_dev for every CPU keeps the invariant, the driver slot and the governor list |
| DriverSpec.RemoveCpuKeeps | drivers/cpufreq/cpufreq.c:1592-1605 | cpufreq_remove_dev keeps the invariant and unmaps an online CPU |
| DriverSpec.RegisterDriver | drivers/cpufreq/cpufreq.c:2565-2624 | -EINVAL exactly for an incomplete driver, -EBUSY exactly when a driver is registered, -ENODEV when disabled; a complete driver on a free slot runs the add pass with the flagged driver installed and succeeds exactly when it is sticky or the pass left some CPU with a policy; success leaves the state the add pass left, and failure (-ENODEV) the state after the remove pass with the slot empty |
| DriverSpec.UnregisterDriver | drivers/cpufreq/cpufreq.c:2636-2653 | succeeds exactly for the registered driver, and then leaves the state after the remove pass over every CPU with the slot empty; anything else is -EINVAL with no change |
| DriverSpec.RegisterUnregister | drivers/cpufreq/cpufreq.c:2565-2653 | a driver that registered unregisters with 0, leaving the driver slot and the governors as before registration |
| CoreOps.CallGovernor | drivers/cpufreq/cpufreq.c:2134-2179 | computes GovernorCall |
| CoreOps.SwitchGovernors | drivers/cpufreq/cpufreq.c:2348-2384 | computes SwitchGovernor |
| CoreOps.SetPolicyOn | drivers/cpufreq/cpufreq.c:2271-2397 | computes SetPolicy |
| CoreOps.FindGovernor | drivers/cpufreq/cpufreq.c:370-379 | the list walk computes Find |
| CoreOps.RestartOn | drivers/cpufreq/cpufreq.c:1479-1484 | computes Restart |
| CoreOps.Weight | drivers/cpufreq/cpufreq.c:1510 | the counting loop computes CountIn |
| CoreOps.First | drivers/cpufreq/cpufreq.c:1576 | the scan computes FirstFrom |
| CoreOps.RestoreOn | drivers/cpufreq/cpufreq.c:1108-1126 | computes Restore |
| Hotplug.ScanSibling | drivers/cpufreq/cpufreq.c:1360-1372 | the for_each_online_cpu loop computes Sibling |
| Hotplug.ScanManaged | drivers/cpufreq/cpufreq.c:1129-1141 | the for_each_cpu loop computes Managed |
| Hotplug.Join | drivers/cpufreq/cpufreq.c:1140-1182 | computes Joined |
| Hotplug.AddDevPolicy | drivers/cpufreq/cpufreq.c:1100-1189 | computes cpufreq_add_dev_policy's answer and state |
| Hotplug.Assign | drivers/cpufreq/cpufreq.c:1262-1267 | the binding loop stores the policy and its owner at every CPU of the mask below nr |
| Hotplug.Drop | drivers/cpufreq/cpufreq.c:1418-1421 | the unbinding loop removes exactly the mask's CPUs below nr |
| Hotplug.SaveAll | drivers/cpufreq/cpufreq.c:1520-1541 | the save loop stores the snapshot at every CPU of the set below nr and counts them |
| Hotplug.Bind | drivers/cpufreq/cpufreq.c:1261-1268 | computes Bound |
| Hotplug.Symlinks | drivers/cpufreq/cpufreq.c:1193-1219 | computes Linked |
| Hotplug.Interface | drivers/cpufreq/cpufreq.c:1221-1294 | computes cpufreq_add_dev_interface's answer and state |
| Hotplug.Finish | drivers/cpufreq/cpufreq.c:1396-1424 | computes the tail of cpufreq_add_dev |
| Hotplug.Setup | drivers/cpufreq/cpufreq.c:1382-1428 | computes cpufreq_add_dev after `init` |
| Hotplug.Fresh | drivers/cpufreq/cpufreq.c:1337-1437 | computes cpufreq_add_dev from the allocation |
| Hotplug.AddDev | drivers/cpufreq/cpufreq.c:1306-1438 | computes cpufreq_add_dev's answer and state |
| Hotplug.Unlink | drivers/cpufreq/cpufreq.c:1477-1491 | computes Unlinked |
| Hotplug.Bookkeep | drivers/cpufreq/cpufreq.c:1496-1541 | the owner's loops unmap `cpu` and the others, save the snapshot at all of them, and count the others |
| Hotplug.Release | drivers/cpufreq/cpufreq.c:1496-1541 | computes Released |
| Hotplug.Stop | drivers/cpufreq/cpufreq.c:1547-1566 | computes Stopped |
| Hotplug.RemoveDev | drivers/cpufreq/cpufreq.c:1448-1589 | computes __cpufreq_remove_dev's answer and state, recursing once for the hand-over |
| Hotplug.RemoveCpu | drivers/cpufreq/cpufreq.c:1592-1605 | computes cpufreq_remove_dev |
| Registration.AddAll | drivers/cpufreq/cpufreq.c:2590 | the interface's add pass computes AddFrom |
| Registration.RemoveAll | drivers/cpufreq/cpufreq.c:2618 | the interface's remove pass computes RemoveFrom |
| Registration.AnyMapped | drivers/cpufreq/cpufreq.c:2598-2603 | the scan answers whether any CPU below nr has a policy |
| Registration.RegisterDriver | drivers/cpufreq/cpufreq.c:2565-2624 | computes cpufreq_register_driver's answer and state |
| Registration.UnregisterDriver | drivers/cpufreq/cpufreq.c:2636-2653 | computes cpufreq_unregister_driver's answer and state |
| Cpufreq.CpufreqCore.constructor | drivers/cpufreq/cpufreq.c:47-79 | the core starts with no driver, no governor and no policy |
| Cpufreq.CpufreqCore.CpuGet | drivers/cpufreq/cpufreq.c:187-223 | updates the fields as RegistrySpec.CpuGet |
| Cpufreq.CpufreqCore.CpuPut | drivers/cpufreq/cpufreq.c:236-241 | updates the fields as RegistrySpec.CpuPut |
| Cpufreq.CpufreqCore.Lock | drivers/cpufreq/cpufreq.c:81-98 | updates the lock table as RegistrySpec.Lock |
| Cpufreq.CpufreqCore.Unlock | drivers/cpufreq/cpufreq.c:100-112 | updates the lock table as RegistrySpec.Unlock |
| Cpufreq.CpufreqCore.Governor | drivers/cpufreq/cpufreq.c:2134-2179 | updates the policy, references and trace as GovernorCall |
| Cpufreq.CpufreqCore.SwitchGovernor | drivers/cpufreq/cpufreq.c:2348-2384 | updates the policy, references and trace as SwitchGovernor |
| Cpufreq.CpufreqCore.SetPolicy | drivers/cpufreq/cpufreq.c:2271-2397 | updates the policy, references and trace as SetPolicy |
| Cpufreq.CpufreqCore.NotifyTransition | drivers/cpufreq/cpufreq.c:305-350 | updates the fields as TransitionSpec.NotifyTransition |
| Cpufreq.CpufreqCore.OutOfSync | drivers/cpufreq/cpufreq.c:1626-1639 | updates the fields as TransitionSpec.OutOfSync |
| Cpufreq.CpufreqCore.Get | drivers/cpufreq/cpufreq.c:1704-1725 | updates the fields as TransitionSpec.Get |
| Cpufreq.CpufreqCore.DriverTarget | drivers/cpufreq/cpufreq.c:2026-2085 | answers and extends the trace as GovernorSpec.DriverTarget on the old state, changes nothing else and keeps the invariant |
| Cpufreq.CpufreqCore.UpdatePolicy | drivers/cpufreq/cpufreq.c:2406-2451 | updates the fields as PolicySpec.UpdatePolicy |
| Cpufreq.CpufreqCore.Resync | drivers/cpufreq/cpufreq.c:2431-2441 | updates the fields as PolicySpec.Resync |
| Cpufreq.CpufreqCore.Reapply | drivers/cpufreq/cpufreq.c:2423-2443 | updates the fields as PolicySpec.Reapply |
| Cpufreq.CpufreqCore.StoreLimit | drivers/cpufreq/cpufreq.c:472-509 | updates the fields as PolicySpec.StoreLimit |
| Cpufreq.CpufreqCore.StoreChecked | drivers/cpufreq/cpufreq.c:502-508 | updates the fields as PolicySpec.StoreChecked |
| Cpufreq.CpufreqCore.SetUser | drivers/cpufreq/cpufreq.c:502-503 | sets only the policy's user limits |
| Cpufreq.CpufreqCore.ParseGovernor | drivers/cpufreq/cpufreq.c:384-428 | answers as RegistrySpec.ParseGovernor |
| Cpufreq.CpufreqCore.RegisterGovernor | drivers/cpufreq/cpufreq.c:2182-2202 | updates the governor list as RegistrySpec.RegisterGovernor |
| Cpufreq.CpufreqCore.UnregisterGovernor | drivers/cpufreq/cpufreq.c:2206-2234 | updates the saved entries and list as RegistrySpec.UnregisterGovernor |
| Cpufreq.CpufreqCore.AddDev | drivers/cpufreq/cpufreq.c:1306-1438 | updates the fields as AddSpec.AddDev |
| Cpufreq.CpufreqCore.RemoveDev | drivers/cpufreq/cpufreq.c:1592-1605 | updates the fields as RemoveSpec.RemoveCpu |
| Cpufreq.CpufreqCore.RegisterDriver | drivers/cpufreq/cpufreq.c:2565-2624 | updates the fields as DriverSpec.RegisterDriver |
| Cpufreq.CpufreqCore.UnregisterDriver | drivers/cpufreq/cpufreq.c:2636-2653 | updates the fields as DriverSpec.UnregisterDriver |

## Left out

- Spinlocks, the governor mutex and concurrency in general: every operation runs to completion on its own. The policy rwsems appear only as a multiset of holds (`Core.held`).
- The rwsem juggling inside cpufreq_add_dev and __cpufreq_remove_dev is not modelled. This covers the unlock/relock around sysfs_remove_link and the lock_policy_rwsem_write calls there. As a result, the -EBUSY return of cpufreq_add_dev_policy when re-locking fails (lines 1147-1153) is not modelled.
- sysfs and kobjects:
  - `kobject_init_and_add`, `sysfs_create_file`, `sysfs_create_link` and `sysfs_remove_link` always succeed.
  - `kobject_uevent` and `wait_for_completion` are left out.
  - The kobject's own reference is not counted separately from `kobjRefs`.
- Memory allocation: `kzalloc` and cpumask allocation never fail, so the -ENOMEM path of cpufreq_add_dev is absent.
- request_module in cpufreq_parse_governor: no governor module is loaded on demand, so an unknown name stays unknown.
- The policy notifier chain: its ADJUST and INCOMPATIBLE callbacks are one `Env.adjust` function, and its NOTIFY and START calls are not recorded. The transition notifier and adjust_jiffies appear only as `Transition` events in the trace.
- The vendor options: CONFIG_UNI_CPU_POLICY_LIMIT, the battery limit block in __cpufreq_driver_target, and the CONFIG_HOTPLUG_CPU/CONFIG_SMP switches. These are modelled as enabled, and the vendor options as disabled.
- PM-QoS requests, the compile-time default and fallback governors, and module reference outcomes are parameters in `Env`.
- The possible and present CPUs are taken to be [0, nr).
- The hotcpu notifier (cpufreq_cpu_callback) is not modelled. Its add and remove calls are the same cpufreq_add_dev and __cpufreq_remove_dev modelled here.
- show_cpus and show_scaling_governor (sysfs text formatting) are not modelled. Of the sysfs files only scaling_min_freq and scaling_max_freq are modelled (store_one); the other store_ and show_ routines and the sysfs dispatch with its policy lock are not.
- GovernorSpec.GovernorCall: for a policy with no governor the model answers -EFAULT and calls nothing, where the source dereferences a NULL pointer. For setpolicy drivers this case is reachable through the STOP/START/LIMITS restarts of the merge and non-owner paths (lines 1155-1165 and 1479-1484).
- RemoveSpec.Saved: the saved governor name is not truncated to CPUFREQ_NAME_LEN by strncpy, since names are compared over that length anyway.
- DriverSpec.RegisterDriver: a null driver pointer is not modelled. Nor is the write of CONST_LOOPS into the caller's driver structure when registration then fails with -EBUSY. A failure of subsys_interface_register itself is not modelled either.
- The nested cpufreq_add_dev of the hand-over in __cpufreq_remove_dev passes sif = NULL. That argument is unused, so it is not modelled.
- PolicySpec.StoreLimit: the vendor cap `get_max_lock` (lines 484 and 497-500) is taken as 0, so it never lowers the written maximum. The answer is taken as the 32-bit `ssize_t` it becomes on a 32-bit kernel: the errno held in the `unsigned int ret` comes back negative.
- Env.governorResult: a governor's answer depends on the governor and the event but not on the policy, so a governor that fails for one policy and succeeds for another is not modelled.
- GovernorNames.Lower: characters stand for the bytes of a name, with codes below 256; tolower follows the kernel's Latin-1 ctype table, and no other encoding is modelled.
- Cpufreq.CpufreqCore: the hotplug and registration methods compute the new state as a `Core` value through `Hotplug` and `Registration`, then store it in the fields. The fields are therefore not updated one by one in the source's order.

## Findings

| source | as written | input that shows it | evidently intended | confidence | as-written member | corrected member |
|---|---|---|---|---|---|---|
| drivers/cpufreq/cpufreq.c:1497 (and 1527) | the owner's removal copies `data->governor->name` into the saved entry unconditionally | a driver with `setpolicy` registers; cpufreq_add_dev brings CPU 0 online; cpufreq_add_dev_interface sets `policy->governor = NULL` (line 1276), and the setpolicy branch of __cpufreq_set_policy never sets it; removing CPU 0 then dereferences a NULL governor | save an empty governor name when the policy has no governor | not executed | RemoveSpec.SavedAsWritten, AddSpec.AddDevUngoverned | RemoveSpec.Saved, RemoveSpec.SavedRestores |
