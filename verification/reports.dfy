/**
 * The error report: a sequence whose entries are property names or nested
 * sequences, and the values a single type validator can hand back.
 */
module Reports {

  datatype ErrorEntry = Name(name: string) | Nested(entries: seq<ErrorEntry>)

  type Report = seq<ErrorEntry>

  /** No empty nested report occurs anywhere inside the entry. */
  predicate WellFormedEntry(e: ErrorEntry) {
    match e
    case Name(_) => true
    case Nested(es) => |es| > 0 && forall x | x in es :: WellFormedEntry(x)
  }

  predicate WellFormed(r: Report) {
    forall e | e in r :: WellFormedEntry(e)
  }

  /** What a type validator returns: nothing (`undefined`), the property
      name, or an array of errors. */
  datatype Returned = NoReturn | PropertyName(name: string) | ErrorList(errors: Report)

  /** The entries a validator's return value adds to the type errors: it is
      pushed only when it is truthy and has a non-zero length. */
  function Push(o: Returned): (r: Report)
    ensures |r| <= 1
    ensures Name("") !in r && Nested([]) !in r
    ensures o.PropertyName? && o.name != "" ==> r == [Name(o.name)]
    ensures o.ErrorList? && o.errors != [] ==> r == [Nested(o.errors)]
    ensures o.ErrorList? && WellFormed(o.errors) ==> WellFormed(r)
    ensures r == [] <==> !(o.PropertyName? && o.name != "") && !(o.ErrorList? && o.errors != [])
  {
    match o
    case NoReturn => []
    case PropertyName(n) => if |n| > 0 then [Name(n)] else []
    case ErrorList(es) => Nest(es)
  }

  /** A report as one entry of an enclosing report: nested when non-empty,
      and left out when empty. */
  function Nest(e: Report): (r: Report)
    ensures |r| <= 1 && Nested([]) !in r
    ensures e != [] ==> r == [Nested(e)]
    ensures e == [] ==> r == []
  {
    if |e| > 0 then [Nested(e)] else []
  }
}
