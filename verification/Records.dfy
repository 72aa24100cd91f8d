/** The records the frontend receives from the API, reduced to what its logic looks at. */
module Records {
  /** A project, file or conversation: its `id` and its other fields as text. */
  datatype Record = Record(id: string, fields: map<string, string>)

  /** The ids of a list of records, in order. */
  function Ids(xs: seq<Record>): (r: seq<string>)
    ensures |r| == |xs| && forall i | 0 <= i < |xs| :: r[i] == xs[i].id
  {
    seq(|xs|, i requires 0 <= i < |xs| => xs[i].id)
  }
}
