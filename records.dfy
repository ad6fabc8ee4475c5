/** What the batch scripts get from the services and write per recording. */
module Records {
  import opened Json
  import opened Transcription
  import opened Structurize

  /** The cloud services, as what they answer per audio path: the speech
      service's recognition result, and the chat completion returned for the
      structuring request made from that recording's transcript. */
  datatype Services = Services(recognize: string -> Recognition, reply: string -> Completion)

  /** One JSON line of a results log, and the body of a per-recording snapshot. */
  datatype Record = Record(file: string, transcript: string, summaryBullets: Value, structured: Dict)

  /** A per-recording output file: a JSON snapshot of the record, or the text
      of the exception that stopped the recording. */
  datatype Artifact = Snapshot(record: Record) | ErrorText(message: string)
}
