/** Value types shared by the relay model. */
module Base {

  /** An octet: request and response bodies and WebSocket payloads are sequences of these. */
  newtype byte = x: int | 0 <= x < 256

  type Bytes = seq<byte>

  datatype Option<+T> = None | Some(value: T)

  /** Go's `url.Values` and `http.Header`: a name mapped to its list of values. */
  type Values = map<string, seq<string>>
}
