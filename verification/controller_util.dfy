/**
 * controller/util.go: the package-level update counters and the
 * controller package's own namespace().
 */
module ControllerUtil {
  import opened Wrappers
  import opened GoStrings
  import Kube
  import Ambient

  /** 2^64: the counters are uint64 and wrap around. */
  const Uint64Modulus: nat := 0x1_0000_0000_0000_0000

  /** atomic.AddUint64(&x, 1) on a uint64: one more, or back to 0 from the largest value. */
  function Increment(x: nat): (y: nat)
    requires x < Uint64Modulus
    ensures y < Uint64Modulus
    ensures x < Uint64Modulus - 1 ==> y == x + 1
    ensures x == Uint64Modulus - 1 ==> y == 0
  {
    (x + 1) % Uint64Modulus
  }

  /** A counter's value after `n` increments from zero. */
  function AfterIncrements(n: nat): (c: nat)
    ensures c < Uint64Modulus
  {
    if n == 0 then 0 else Increment(AfterIncrements(n - 1))
  }

  /** After `n` increments from zero a counter holds `n` modulo 2^64. */
  lemma {:induction false} AfterIncrementsIsModulo(n: nat)
    ensures AfterIncrements(n) == n % Uint64Modulus
  {
    if n > 0 {
      AfterIncrementsIsModulo(n - 1);
      var p := (n - 1) % Uint64Modulus;
      if p < Uint64Modulus - 1 {
        assert n % Uint64Modulus == p + 1 by {
          assert n == (n - 1) / Uint64Modulus * Uint64Modulus + p + 1;
        }
      } else {
        assert n % Uint64Modulus == 0 by {
          assert n == ((n - 1) / Uint64Modulus + 1) * Uint64Modulus;
        }
      }
    }
  }

  /** The two package-level counters updateAcknowledged and updatePerformed. */
  class UpdateCounters {
    var updateAcknowledged: nat
    var updatePerformed: nat

    ghost predicate Valid()
      reads this
    {
      updateAcknowledged < Uint64Modulus && updatePerformed < Uint64Modulus
    }

    /** Both counters start at zero. */
    constructor ()
      ensures Valid() && updateAcknowledged == 0 && updatePerformed == 0
    {
      updateAcknowledged, updatePerformed := 0, 0;
    }

    /** updateAcknowledgedCounter: one more acknowledged update (mod 2^64); the other counter is untouched. */
    method AcknowledgeUpdate()
      requires Valid()
      modifies this
      ensures Valid()
      ensures updateAcknowledged == Increment(old(updateAcknowledged))
      ensures updatePerformed == old(updatePerformed)
    {
      updateAcknowledged := Increment(updateAcknowledged);
    }

    /** updatePerformedCounter: one more performed update (mod 2^64); the other counter is untouched. */
    method PerformUpdate()
      requires Valid()
      modifies this
      ensures Valid()
      ensures updatePerformed == Increment(old(updatePerformed))
      ensures updateAcknowledged == old(updateAcknowledged)
    {
      updatePerformed := Increment(updatePerformed);
    }
  }

  /**
   * namespace() of the controller package, the same resolution as util.go:
   * KUBE_NAMESPACE when set, else the trimmed service-account namespace
   * file when readable and not blank, else "default"; never empty.
   */
  function Namespace(kubeNamespace: string, serviceAccountFile: Option<string>): (ns: string)
    ensures ns != ""
    ensures kubeNamespace != "" ==> ns == kubeNamespace
    ensures kubeNamespace == "" && serviceAccountFile.Some? && TrimSpace(serviceAccountFile.value) != "" ==>
              ns == TrimSpace(serviceAccountFile.value)
    ensures kubeNamespace == "" && (serviceAccountFile.None? || TrimSpace(serviceAccountFile.value) == "") ==>
              ns == Kube.DefaultNamespace
  {
    Ambient.Namespace(kubeNamespace, serviceAccountFile)
  }
}
