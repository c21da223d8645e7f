/** The log record every stage of the engine carries. */
module Records {
  import opened Seqs

  datatype LogRecord = LogRecord(
    timestampUs: int,
    traceId: Option<string>,
    level: string,
    service: string,
    message: string,
    rawBody: Option<string>)
}
