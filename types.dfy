/** Values shared by the importer and the pump. */
module Types {

  datatype Option<T> = None | Some(value: T)

  datatype Result<T, E> = Ok(value: T) | Err(error: E)

  /** An error handed back by a collaborator (the JSON decoder, BigQuery,
      Pub/Sub, Stackdriver), kept as its message. */
  datatype Cause = Cause(message: string)

  /** `simpleRecord`: one decoded message payload, a map from column name to
      value; values are kept in their text form. */
  datatype Record = Record(fields: map<string, string>)
}
