/** cpufreq_register_driver and cpufreq_unregister_driver as procedures on
    the core's state, with the subsys interface's passes over the CPUs, each
    proved to compute what DriverSpec defines. */
module Registration {
  import opened CpufreqTypes
  import opened AddSpec
  import opened RemoveSpec
  import opened DriverSpec
  import Hotplug

  /** subsys_interface_register: cpufreq_add_dev for every CPU below nr. */
  method AddAll(c: Core, env: Env, nr: nat) returns (r: Core)
    requires Inv(c) && c.driver.Some? && EnvOk(env, nr)
    ensures r == AddFrom(c, env, nr, 0)
  {
    r := c;
    var j := 0;
    while j < nr
      invariant j <= nr && Inv(r) && r.driver.Some?
      invariant AddFrom(r, env, nr, j) == AddFrom(c, env, nr, 0)
    {
      AddDevKeeps(r, env, nr, j);
      var _, a := Hotplug.AddDev(r, env, nr, j);
      r := a;
      j := j + 1;
    }
  }

  /** subsys_interface_unregister: cpufreq_remove_dev for every CPU below nr. */
  method RemoveAll(c: Core, env: Env, nr: nat) returns (r: Core)
    requires Inv(c) && c.driver.Some? && EnvOk(env, nr)
    ensures r == RemoveFrom(c, env, nr, 0)
  {
    r := c;
    var j := 0;
    while j < nr
      invariant j <= nr && Inv(r) && r.driver.Some?
      invariant RemoveFrom(r, env, nr, j) == RemoveFrom(c, env, nr, 0)
    {
      RemoveCpuKeeps(r, env, nr, j);
      var _, a := Hotplug.RemoveCpu(r, env, nr, j);
      r := a;
      j := j + 1;
    }
  }

  /** The check for at least one working CPU. */
  method AnyMapped(c: Core, nr: nat) returns (found: bool)
    ensures found == Anyone(c, nr)
  {
    var i := 0;
    while i < nr
      invariant i <= nr
      invariant forall k :: 0 <= k < i ==> k !in c.cpuData
    {
      if i in c.cpuData {
        return true;
      }
      i := i + 1;
    }
    return false;
  }

  /** cpufreq_register_driver(d). */
  method RegisterDriver(c: Core, env: Env, nr: nat, d: Driver) returns (ret: int, r: Core)
    requires Inv(c) && EnvOk(env, nr)
    ensures (ret, r) == DriverSpec.RegisterDriver(c, env, nr, d)
  {
    if c.off {
      return -ENODEV, c;
    }
    if !d.hasVerify || !d.hasInit || (!d.hasSetpolicy && !d.hasTarget) {
      return -EINVAL, c;
    }
    var drv := d;
    if d.hasSetpolicy {
      drv := d.(flags := d.flags + {ConstLoops});
    }
    if c.driver.Some? {
      return -EBUSY, c;
    }
    r := AddAll(c.(driver := Some(drv)), env, nr);
    if Sticky !in drv.flags {
      var found := AnyMapped(r, nr);
      if !found {
        // every init failed: unregister the interface, empty the driver slot
        r := RemoveAll(r, env, nr);
        return -ENODEV, r.(driver := None);
      }
    }
    ret := 0;
  }

  /** cpufreq_unregister_driver(d). */
  method UnregisterDriver(c: Core, env: Env, nr: nat, d: Driver) returns (ret: int, r: Core)
    requires Inv(c) && EnvOk(env, nr)
    ensures (ret, r) == DriverSpec.UnregisterDriver(c, env, nr, d)
  {
    if c.driver.None? || c.driver.value.handle != d.handle {
      return -EINVAL, c;
    }
    r := RemoveAll(c, env, nr);
    r := r.(driver := None);
    ret := 0;
  }
}
