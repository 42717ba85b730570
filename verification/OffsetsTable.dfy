/** The offsets table: one row a reader, shared by the readers, the truncation service and the scaler. */
module OffsetsTable {

  type Reader = string

  class Offsets {
    var rows: map<Reader, int>

    constructor ()
      ensures rows == map[]
    {
      rows := map[];
    }
  }
}
