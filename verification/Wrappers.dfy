/** Small datatypes and a fact about maps shared by the models. */
module Wrappers {

  /** An absent value stands for a Go nil, a missing row or a SQL NULL. */
  datatype Option<+T> = None | Some(value: T) {
    function GetOr(default: T): T {
      match this
      case Some(v) => v
      case None => default
    }
  }

  datatype Result<+T, +E> = Ok(value: T) | Err(error: E)

  lemma FewerKeys<K, V>(m: map<K, V>, keys: set<K>)
    ensures |m - keys| <= |m|
  {
    assert m.Keys == (m - keys).Keys + (m.Keys * keys);
    assert |(m - keys).Keys| == |m - keys| && |m.Keys| == |m|;
  }
}
