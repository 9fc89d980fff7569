/**
 * The part of the `csv` crate's `Writer` the program uses: `write_field` adds a field
 * to the record being built, and `write_record` with no further fields ends that
 * record. Quoting, escaping and the bytes written are not modelled: a finished file is
 * its sequence of records, each a sequence of fields.
 */
module Csv {

  class Writer {
    /** The records already ended, in order. */
    var records: seq<seq<string>>
    /** The fields written since the last record ended. */
    var current: seq<string>

    /** `Writer::from_writer`: nothing written yet. */
    constructor ()
      ensures records == [] && current == []
    {
      records := [];
      current := [];
    }

    /** `write_field`: one more field in the current record. */
    method WriteField(field: string)
      modifies this
      ensures records == old(records)
      ensures current == old(current) + [field]
    {
      current := current + [field];
    }

    /** `write_record` of an empty record: the fields written so far become one record. */
    method EndRecord()
      modifies this
      ensures records == old(records) + [old(current)]
      ensures current == []
    {
      records := records + [current];
      current := [];
    }

    /** Writes `n` empty fields. */
    method WriteBlanks(n: nat)
      modifies this
      ensures records == old(records)
      ensures current == old(current) + Blanks(n)
    {
      for i := 0 to n
        invariant records == old(records)
        invariant current == old(current) + Blanks(i)
      {
        assert Blanks(i + 1) == Blanks(i) + [""];
        WriteField("");
      }
    }

    /** Writes every field of `fields`, in order. */
    method WriteFields(fields: seq<string>)
      modifies this
      ensures records == old(records)
      ensures current == old(current) + fields
    {
      for i := 0 to |fields|
        invariant records == old(records)
        invariant current == old(current) + fields[..i]
      {
        assert fields[..i + 1] == fields[..i] + [fields[i]];
        WriteField(fields[i]);
      }
    }
  }

  /** `n` empty fields. */
  function Blanks(n: nat): (r: seq<string>)
    ensures |r| == n
    ensures forall i :: 0 <= i < n ==> r[i] == ""
  {
    seq(n, _ => "")
  }
}
