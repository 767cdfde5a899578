/** The record envelope that travels between operators (common/records.py). */
module Records {

  datatype Json =
    | Null
    | Bool(flag: bool)
    | Number(number: int)
    | String(text: string)
    | Array(elements: seq<Json>)
    | Object(fields: map<string, Json>)

  datatype MessageType = Data | Watermark | Barrier | CheckpointComplete

  /** Instants are microseconds since the Unix epoch. */
  datatype Record = Record(
    recordId: string,
    payload: Json,
    processingTime: int,
    key: Json,
    messageType: MessageType,
    headers: map<string, Json>)
}
