/** Failure-carrying values for the Python exceptions the modelled code lets escape. */
module Results {

  datatype Option<T> = None | Some(value: T)

  /** The exceptions the modelled scripts can raise and do not catch. */
  datatype PyError =
    | IndexError       // a list index or a numpy index past the end
    | AttributeError   // `.replace` called on the `None` text of an XML element
    | ValueError       // `np.concatenate` given arrays of different dimensions

  datatype Result<T> = Ok(value: T) | Err(error: PyError)

  /**
   * The values of the first `k` results, or the error of the first failing
   * one: what a loop that stops at the first exception produces.
   */
  function Collect<T>(rs: seq<Result<T>>, k: nat): Result<seq<T>>
    requires k <= |rs|
  {
    if k == 0 then Ok([])
    else match Collect(rs, k - 1)
      case Err(e) => Err(e)
      case Ok(vs) =>
        match rs[k - 1]
        case Err(e) => Err(e)
        case Ok(v) => Ok(vs + [v])
  }

  /** Collecting succeeds exactly when every result is a value, and then yields those values in order. */
  lemma {:induction false} CollectOk<T>(rs: seq<Result<T>>, k: nat)
    requires k <= |rs|
    ensures Collect(rs, k).Ok? <==> forall i :: 0 <= i < k ==> rs[i].Ok?
    ensures Collect(rs, k).Ok? ==> |Collect(rs, k).value| == k && forall i :: 0 <= i < k ==> rs[i] == Ok(Collect(rs, k).value[i])
  {
    if k > 0 {
      CollectOk(rs, k - 1);
    }
  }

  /** A failed collection reports the error of the first failing result. */
  lemma {:induction false} CollectErr<T>(rs: seq<Result<T>>, k: nat) returns (i: nat)
    requires k <= |rs| && Collect(rs, k).Err?
    ensures i < k && rs[i] == Err(Collect(rs, k).error)
    ensures forall h :: 0 <= h < i ==> rs[h].Ok?
  {
    CollectOk(rs, k - 1);
    if Collect(rs, k - 1).Err? {
      i := CollectErr(rs, k - 1);
    } else {
      i := k - 1;
    }
  }

  /** One more value extends a successful collection by that value. */
  lemma CollectStep<T>(rs: seq<Result<T>>, k: nat, vs: seq<T>, v: T)
    requires k < |rs| && Collect(rs, k) == Ok(vs) && rs[k] == Ok(v)
    ensures Collect(rs, k + 1) == Ok(vs + [v])
  {
  }

  /** Once a result has failed, the collection keeps that error to the end. */
  lemma {:induction false} CollectSticky<T>(rs: seq<Result<T>>, k: nat, e: PyError)
    requires k <= |rs| && Collect(rs, k) == Err(e)
    ensures Collect(rs, |rs|) == Err(e)
    decreases |rs| - k
  {
    if k < |rs| {
      CollectSticky(rs, k + 1, e);
    }
  }
}
