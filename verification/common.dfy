/** Shared vocabulary of the dashboard's form logic: optional values, results,
    the dynamically typed field values a form holds, JavaScript truthiness and
    the ordered name/value entries of a multipart form payload. */
module Common {

  datatype Option<+T> = None | Some(value: T)

  /** Outcome of a validating operation: the accepted value or the reason it was refused. */
  datatype Result<+T, +E> = Ok(value: T) | Err(error: E)

  /** A form field value: a string typed by the user, a number set by code,
      or an attached file (only its presence matters here). */
  datatype Value = Text(text: string) | Number(n: int) | Blob

  /** JavaScript truthiness of a field value: the empty string and zero are
      falsy, every other string, number and file object is truthy. */
  predicate Truthy(v: Value)
  {
    match v
    case Text(s) => s != ""
    case Number(n) => n != 0
    case Blob => true
  }

  /** One `name=value` part of a multipart form payload. */
  datatype Entry = Entry(name: string, value: Value)

  /** The two supporting documents a multipart organ payload can carry. */
  const MedicalDocument: Entry := Entry("medicalDocument", Blob)
  const IdentityProof: Entry := Entry("identityProof", Blob)

  /** The entries of `es` whose value is truthy, in their original order
      (the `val && data.append(key, val)` idiom). */
  function KeepTruthy(es: seq<Entry>): (r: seq<Entry>)
    ensures |r| <= |es|
    ensures forall i :: 0 <= i < |r| ==> Truthy(r[i].value) && r[i] in es
    ensures forall e :: e in es && Truthy(e.value) ==> e in r
    ensures (forall i :: 0 <= i < |es| ==> Truthy(es[i].value)) ==> r == es
  {
    if es == [] then []
    else
      var rest := KeepTruthy(es[1..]);
      assert es == [es[0]] + es[1..];
      if Truthy(es[0].value) then [es[0]] + rest else rest
  }

  /** Filtering distributes over concatenation: the kept entries of `a + b`
      are those of `a` followed by those of `b`, so the filter keeps order. */
  lemma {:induction false} KeepTruthyAppend(a: seq<Entry>, b: seq<Entry>)
    ensures KeepTruthy(a + b) == KeepTruthy(a) + KeepTruthy(b)
    decreases |a|
  {
    if a == [] {
      assert a + b == b;
    } else {
      assert (a + b)[0] == a[0] && (a + b)[1..] == a[1..] + b;
      KeepTruthyAppend(a[1..], b);
    }
  }
}
