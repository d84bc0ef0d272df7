/**
 * A search-engine document: its field map, the keys registered as original
 * fields, the source alias, the error list, and two reserved slots for the
 * document id and relevance score that are kept apart from the fields.
 */
module Documents {
  import opened Wrappers
  import opened PhpArrays
  import opened PhpValues

  /** The constructor's `$options`; `None` is an option the caller left out. */
  datatype DocumentOptions = DocumentOptions(
    useSetters: Option<bool>,
    markClean: Option<bool>,
    guard: Option<bool>,
    source: Option<string>)

  const NoOptions: DocumentOptions := DocumentOptions(None, None, None, None)

  /** `$options += [...]`: a given option wins over its default. */
  function UseSetters(o: DocumentOptions): bool { o.useSetters.GetOr(true) }
  function MarkClean(o: DocumentOptions): bool { o.markClean.GetOr(false) }
  function Guard(o: DocumentOptions): bool { o.guard.GetOr(false) }

  /** Properties are assigned raw, bypassing `patch`, only for a clean document built without setters. */
  predicate AssignsRaw(o: DocumentOptions)
  {
    MarkClean(o) && !UseSetters(o)
  }

  class Document {
    const className: string
    var fields: seq<(Key, Value)>
    var originalFields: seq<Key>
    var source: Option<string>
    var documentId: Value
    var score: Value
    var errors: seq<Value>
    /** Whether the constructor went through `patch` rather than assigning the fields raw. */
    ghost var patched: bool

    constructor (className: string, properties: seq<(Key, Value)>, options: DocumentOptions)
      requires Distinct(properties)
      ensures this.className == className
      ensures fields == properties
      ensures originalFields == KeysOf(properties)
      ensures source == options.source
      ensures documentId == Null && score == Null
      ensures errors == []
      ensures patched <==> properties != [] && !AssignsRaw(options)
    {
      this.className := className;
      fields := [];
      originalFields := [];
      source := None;
      documentId := Null;
      score := Null;
      errors := [];
      patched := false;
      new;
      if options.source.Some? {
        source := options.source;
      }
      if properties != [] {
        originalFields := KeysOf(properties);
        if AssignsRaw(options) {
          fields := properties;
          return;
        }
        Patch(properties, UseSetters(options), Guard(options));
        patched := true;
      }
    }

    /**
     * `patch($properties, ['asOriginal' => true, ...])` into an empty document:
     * each property is set in turn. The generic document declares no mutators
     * and leaves every field accessible, so `setter` and `guard` change nothing.
     */
    method Patch(properties: seq<(Key, Value)>, setter: bool, guard: bool)
      requires fields == [] && Distinct(properties)
      modifies this`fields
      ensures fields == properties
    {
      var i := 0;
      while i < |properties|
        invariant 0 <= i <= |properties|
        invariant fields == properties[..i]
      {
        var (k, v) := properties[i];
        assert k !in KeysOf(properties[..i]);
        AssignAbsent(fields, k, v);
        fields := Assign(fields, k, v);
        assert properties[..i + 1] == properties[..i] + [properties[i]];
        i := i + 1;
      }
    }

    /** `get($field)`: the stored value, or null for a field the document lacks. */
    function Get(field: Key): (v: Value)
      reads this
      ensures field in KeysOf(fields) ==> (field, v) in fields
      ensures field !in KeysOf(fields) ==> v == Null
    {
      Lookup(fields, field).GetOr(Null)
    }

    method SetDocumentId(id: Value) returns (self: Document)
      modifies this`documentId
      ensures self == this && documentId == id
    {
      documentId := id;
      self := this;
    }

    /** `setScore(?float $score)`: an integer argument is widened to a float. */
    method SetScore(s: Value) returns (self: Document)
      requires s.Null? || s.Float? || s.Int?
      modifies this`score
      ensures self == this && score == if s.Int? then Float(s.i as real) else s
    {
      score := if s.Int? then Float(s.i as real) else s;
      self := this;
    }

    function GetDocumentId(): Value
      reads this
    {
      documentId
    }

    function GetScore(): Value
      reads this
    {
      score
    }

    /** `setErrors($errors)` as the ResultSet uses it: the per-item errors of a bulk response. */
    method SetErrors(list: seq<Value>)
      modifies this`errors
      ensures errors == list
    {
      errors := list;
    }
  }
}
