/** The request validator the transport and the store share. Its package is
    not part of this model; it is represented by its observable behaviour:
    a map from field key to message, a check that records its message under
    its key when the condition fails and the key is still free, and
    validity meaning that no check has failed. */
module Validator {

  datatype Validator = Validator(errors: map<string, string>)

  const Empty: Validator := Validator(map[])

  predicate Valid(v: Validator)
  {
    v.errors == map[]
  }

  /** Records `message` under `key` unless `ok` holds; an earlier message
      under the same key is kept. */
  function Check(v: Validator, ok: bool, key: string, message: string): (r: Validator)
    ensures ok ==> r == v
    ensures !ok ==> r.errors.Keys == v.errors.Keys + {key} && key in r.errors
    ensures !ok && key !in v.errors ==> r.errors[key] == message
    ensures forall k :: k in v.errors ==> k in r.errors && r.errors[k] == v.errors[k]
  {
    if ok || key in v.errors then v else Validator(v.errors[key := message])
  }
}
