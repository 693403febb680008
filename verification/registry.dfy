/**
  The device registry the plugin builds at construction: `NDevices` devices
  named "dev000", "dev001", ..., all healthy, keyed by their id.
 */
module Registry {
  import opened Api
  import opened Format

  const NDevices: nat := 5

  /** `fmt.Sprintf("dev%03d", i)`. */
  function DeviceId(i: nat): string {
    "dev" + Format03d(i)
  }

  /** The registry after the first `n` iterations of the construction loop. */
  function InitialRegistry(n: nat): map<string, Device> {
    if n == 0 then map[]
    else InitialRegistry(n - 1)[DeviceId(n - 1) := Device(DeviceId(n - 1), Healthy)]
  }

  /** Every entry is keyed by its own id. */
  predicate WellKeyed(m: map<string, Device>) {
    forall k :: k in m ==> m[k].id == k
  }

  /** Below 1000 the id is "dev" followed by the three digits of the index. */
  lemma DeviceIdBelowThousand(i: nat)
    requires i < 1000
    ensures DeviceId(i) == "dev" + [DigitChar(i / 100), DigitChar(i / 10 % 10), DigitChar(i % 10)]
    ensures |DeviceId(i)| == 6
  {
    Format03dBelowThousand(i);
  }

  /** Distinct indices give distinct ids, so no iteration overwrites an earlier entry. */
  lemma DeviceIdInjective(i: nat, j: nat)
    ensures DeviceId(i) == DeviceId(j) ==> i == j
  {
    if DeviceId(i) == DeviceId(j) {
      assert DeviceId(i)[3..] == Format03d(i);
      assert DeviceId(j)[3..] == Format03d(j);
      Format03dRoundTrip(i);
      Format03dRoundTrip(j);
    }
  }

  lemma {:induction false} RegistryKeys(n: nat)
    ensures InitialRegistry(n).Keys == set i | 0 <= i < n :: DeviceId(i)
  {
    if n > 0 {
      RegistryKeys(n - 1);
      assert (set i | 0 <= i < n :: DeviceId(i)) == (set i | 0 <= i < n - 1 :: DeviceId(i)) + {DeviceId(n - 1)};
    }
  }

  /** The i-th loop iteration stores a healthy device under its own id. */
  lemma {:induction false} RegistryLookup(n: nat, i: nat)
    requires i < n
    ensures DeviceId(i) in InitialRegistry(n)
    ensures InitialRegistry(n)[DeviceId(i)] == Device(DeviceId(i), Healthy)
  {
    if i < n - 1 {
      RegistryLookup(n - 1, i);
    }
  }

  lemma {:induction false} RegistryEntries(n: nat)
    ensures WellKeyed(InitialRegistry(n))
    ensures forall k :: k in InitialRegistry(n) ==> InitialRegistry(n)[k].health == Healthy
  {
    if n > 0 {
      RegistryEntries(n - 1);
    }
  }

  /** The registry holds exactly as many devices as the loop ran iterations. */
  lemma {:induction false} RegistrySize(n: nat)
    ensures |InitialRegistry(n)| == n
  {
    if n > 0 {
      RegistrySize(n - 1);
      RegistryKeys(n - 1);
      if DeviceId(n - 1) in InitialRegistry(n - 1) {
        var i :| 0 <= i < n - 1 && DeviceId(i) == DeviceId(n - 1);
        DeviceIdInjective(i, n - 1);
      }
    }
  }

  lemma FirstIds()
    ensures DeviceId(0) == "dev000" && DeviceId(1) == "dev001" && DeviceId(2) == "dev002"
    ensures DeviceId(3) == "dev003" && DeviceId(4) == "dev004"
  {
    DeviceIdBelowThousand(0);
    DeviceIdBelowThousand(1);
    DeviceIdBelowThousand(2);
    DeviceIdBelowThousand(3);
    DeviceIdBelowThousand(4);
  }

  /** The registry a fresh plugin holds: dev000 .. dev004, all healthy. */
  lemma InitialDevices()
    ensures InitialRegistry(NDevices).Keys == {"dev000", "dev001", "dev002", "dev003", "dev004"}
    ensures |InitialRegistry(NDevices)| == 5
    ensures WellKeyed(InitialRegistry(NDevices))
    ensures forall k :: k in InitialRegistry(NDevices) ==> InitialRegistry(NDevices)[k].health == Healthy
  {
    RegistryKeys(NDevices);
    RegistrySize(NDevices);
    RegistryEntries(NDevices);
    FirstIds();
    var ids := set i | 0 <= i < 5 :: DeviceId(i);
    forall k | k in ids
      ensures k in {"dev000", "dev001", "dev002", "dev003", "dev004"}
    {
      var i :| 0 <= i < 5 && k == DeviceId(i);
    }
    assert DeviceId(0) in ids && DeviceId(1) in ids && DeviceId(2) in ids;
    assert DeviceId(3) in ids && DeviceId(4) in ids;
  }
}
