/**
 * The write operations a caller can record. The store-native payloads (field maps,
 * plain objects, set options, field paths) are only carried along as opaque values:
 * the coordinator never looks inside them.
 */
module Writes {
  import opened Wrappers

  /** A document reference, identified by its path in the store. */
  datatype DocumentRef = DocumentRef(path: string)

  /**
   * Any value the caller passes through: null, an object or field value, or an array
   * of values handed over as one argument.
   */
  datatype Value = Null | Opaque(token: nat) | Packed(items: seq<Value>)

  /** Options of a set operation (merge behaviour), opaque to the coordinator. */
  datatype SetOptions = SetOptions(token: nat)

  /** A field path, as a sequence of field names. */
  datatype FieldPath = FieldPath(segments: seq<string>)

  /** What a set operation writes: a field map or a plain object mapped by the store. */
  datatype SetData = FieldMap(fields: map<string, Value>) | Pojo(obj: Value)

  /** What an update operation changes. */
  datatype UpdateData =
    | UpdateMap(fields: map<string, Value>)
    | ByName(field: string, value: Value, more: seq<Value>)
    | ByPath(path: FieldPath, value: Value, more: seq<Value>)

  /** One buffered write: an entry of a store-native batch's operation log. */
  datatype Write =
    | SetWrite(doc: DocumentRef, data: SetData, options: Option<SetOptions>)
    | UpdateWrite(doc: DocumentRef, change: UpdateData)
    | DeleteWrite(doc: DocumentRef)

  /**
   * The store client's update-by-pairs call takes its trailing arguments as field/value
   * pairs and rejects an odd number of them with an argument error. This is an
   * assumption about the store client, whose code is not part of this model.
   */
  predicate PairsAccepted(args: seq<Value>)
  {
    |args| % 2 == 0
  }

  /**
   * The trailing arguments the store receives when the caller's array of pairs is
   * passed on without the spread operator: a single argument, the array itself.
   */
  function Unspread(more: seq<Value>): seq<Value>
  {
    [Packed(more)]
  }

  /** Passed on unspread, the pairs are rejected whatever they are. */
  lemma UnspreadRejected(more: seq<Value>)
    ensures !PairsAccepted(Unspread(more))
  {
  }
}
