/**
  The time-series data model the handler hands to the store client: a point
  (measurement, tags, fields, timestamp) and a batch of points bound for one
  database at one time precision.
*/
module Influx {

  /** A value decoded from a JSON document into Go's `interface{}`. */
  datatype FieldValue =
    | Number(n: real)
    | Text(s: string)
    | Boolean(b: bool)
    | Null
    | List(items: seq<FieldValue>)
    | Object(members: map<string, FieldValue>)

  type Fields = map<string, FieldValue>

  /** `time` is the instant the server received the request, passed through unchanged. */
  datatype Point = Point(measurement: string, tags: map<string, string>, fields: Fields, time: int)

  datatype BatchPoints = BatchPoints(database: string, precision: string, points: seq<Point>)
}
