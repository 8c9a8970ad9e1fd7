/** Values both egress handlers share. */
module Egress {
  import opened Support

  /** A record of a chunk as the output plugin reads it: `record["type"]`, `record["message"]`. */
  datatype OutRecord = OutRecord(recordType: Option<string>, message: Option<string>)

  /** The `compress` option of the `<http>` and `<grpc>` sections: `:text` or `:gzip`. */
  datatype Compress = Text | Gzip
}
