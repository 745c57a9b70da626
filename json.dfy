/**
 * The JSON text the services keep in the store, and the two string tests they apply to it.
 *
 * Serialisation is modelled as the identity: a value written as JSON is kept as the value it encodes,
 * so reading it back gives it again. Text that is not JSON (the empty-string marker, the lock's "1")
 * is kept as `Text`. Decoding a value as the wrong kind of document stands for the JSON library
 * throwing.
 */
module Json {
  import opened Wrappers
  import opened Entity
  import opened RedisData

  datatype Value =
    | Text(s: string)
    | ShopJson(shop: Shop)
    | EnvelopeJson(envelope: RedisData<Shop>)
    | TypeListJson(types: seq<ShopType>)

  /** The characters the string utility counts as blank: Java whitespace, Unicode space separators and a few invisible marks. */
  predicate BlankChar(c: char)
  {
    || c in {'\t', '\n', '\U{000B}', '\U{000C}', '\r', '\U{001C}', '\U{001D}', '\U{001E}', '\U{001F}'}
    || c in {' ', '\U{00A0}', '\U{1680}', '\U{2028}', '\U{2029}', '\U{202F}', '\U{205F}', '\U{3000}'}
    || ('\U{2000}' <= c <= '\U{200A}')
    || c in {'\U{FEFF}', '\U{202A}', '\0', '\U{3164}', '\U{2800}', '\U{180E}'}
  }

  /**
   * isBlank: null, the empty string, or blank characters only. A JSON document starts with '{' or '['
   * and so is never blank.
   */
  predicate IsBlank(v: Option<Value>)
  {
    match v
    case None => true
    case Some(Text(s)) => forall i :: 0 <= i < |s| ==> BlankChar(s[i])
    case Some(_) => false
  }

  /** Binding text to a Shop; None where the library would throw. */
  function ToBean(v: Value): Option<Shop>
  {
    if v.ShopJson? then Some(v.shop) else None
  }

  /** Binding text to an envelope; None where the library would throw. */
  function ToEnvelope(v: Value): Option<RedisData<Shop>>
  {
    if v.EnvelopeJson? then Some(v.envelope) else None
  }

  /** Binding text to a list of shop types; None where the library would throw. */
  function ToList(v: Value): Option<seq<ShopType>>
  {
    if v.TypeListJson? then Some(v.types) else None
  }

  /** The empty-string marker is blank and a serialised document is not, so the two cannot be confused. */
  lemma MarkerBlankDocumentsNot(shop: Shop, env: RedisData<Shop>, types: seq<ShopType>)
    ensures IsBlank(Some(Text("")))
    ensures !IsBlank(Some(ShopJson(shop))) && !IsBlank(Some(EnvelopeJson(env))) && !IsBlank(Some(TypeListJson(types)))
    ensures !IsBlank(Some(Text("1")))
  {
    assert "1"[0] == '1';
  }

  /** What is serialised decodes back to itself. */
  lemma RoundTrip(shop: Shop, env: RedisData<Shop>, types: seq<ShopType>)
    ensures ToBean(ShopJson(shop)) == Some(shop)
    ensures ToEnvelope(EnvelopeJson(env)) == Some(env)
    ensures ToList(TypeListJson(types)) == Some(types)
  {
  }
}
