/** Already-parsed JSON values. An object is kept as its properties in order.
    For a Python dict that is insertion order. For a JavaScript object it is
    the order `Object.entries` reports, which lists the array-index keys first
    in ascending numeric order and then the other keys in creation order
    (OrdinaryOwnPropertyKeys, section 10.1.11.1 of ECMAScript 2023); the
    `JSON.parse` oracle hands its objects over in that order. */
module Json {
  import opened Strings
  import opened Dict

  /** A property value; `Composite` stands for a nested object. */
  datatype Value = Str(s: string) | Num(n: int) | Bool(b: bool) | Null | Composite

  /** What `JSON.parse` makes of a record's tag text: an object, an array, a
      string, a number or a boolean document, `null` (property reads on it
      throw), or a parse error. */
  datatype Parsed =
    | Object(entries: Entries<Value>)
    | ArrayDoc(items: seq<Value>)
    | StringDoc(text: string)
    | NumberDoc(n: int)
    | BoolDoc(b: bool)
    | NullValue
    | Invalid

  /** `JSON.parse` itself is not modelled; callers pass its outcome in. */
  type Parser = string -> Parsed

  /** A document whose properties can be read without throwing. */
  predicate IsDocument(p: Parsed) { !p.NullValue? && !p.Invalid? }

  /** The index properties `"0"`, `"1"`, ... of an array or a string. */
  function IndexEntries(items: seq<Value>): (e: Entries<Value>)
    ensures |e| == |items|
    ensures forall i :: 0 <= i < |e| ==> e[i] == (NatToString(i), items[i])
  {
    seq(|items|, i requires 0 <= i < |items| => (NatToString(i), items[i]))
  }

  /** The characters of a string document, each a one-character string. */
  function CharValues(s: string): (vs: seq<Value>)
    ensures |vs| == |s|
    ensures forall i :: 0 <= i < |s| ==> vs[i] == Str([s[i]])
  {
    seq(|s|, i requires 0 <= i < |s| => Str([s[i]]))
  }

  /** `Object.entries(doc)`: the own enumerable string-keyed properties; a
      number or a boolean has none. */
  function OwnEntries(p: Parsed): Entries<Value> {
    match p
    case Object(e) => e
    case ArrayDoc(items) => IndexEntries(items)
    case StringDoc(s) => IndexEntries(CharValues(s))
    case _ => []
  }

  /** The string-keyed members of the prototypes (ECMAScript 2023 with its
      Annex B): sections 20.1.3 and B.2.2 for `Object.prototype`, 23.1.3 for
      `Array.prototype`, 22.1.3 and B.2.2 for `String.prototype`, 21.1.3 for
      `Number.prototype` and 20.3.3 for `Boolean.prototype`. Every one is a
      function, except `__proto__`, which reads the prototype object. */
  const ObjectPrototypeNames: set<string> := {
    "constructor", "hasOwnProperty", "isPrototypeOf", "propertyIsEnumerable", "toLocaleString",
    "toString", "valueOf", "__proto__", "__defineGetter__", "__defineSetter__",
    "__lookupGetter__", "__lookupSetter__"}

  const ArrayPrototypeNames: set<string> := {
    "at", "concat", "constructor", "copyWithin", "entries", "every", "fill", "filter", "find",
    "findIndex", "findLast", "findLastIndex", "flat", "flatMap", "forEach", "includes", "indexOf",
    "join", "keys", "lastIndexOf", "map", "pop", "push", "reduce", "reduceRight", "reverse",
    "shift", "slice", "some", "sort", "splice", "toLocaleString", "toReversed", "toSorted",
    "toSpliced", "toString", "unshift", "values", "with"}

  const StringPrototypeNames: set<string> := {
    "at", "charAt", "charCodeAt", "codePointAt", "concat", "constructor", "endsWith", "includes",
    "indexOf", "lastIndexOf", "localeCompare", "match", "matchAll", "normalize", "padEnd",
    "padStart", "repeat", "replace", "replaceAll", "search", "slice", "split", "startsWith",
    "substring", "toLocaleLowerCase", "toLocaleUpperCase", "toLowerCase", "toString",
    "toUpperCase", "trim", "trimEnd", "trimStart", "valueOf", "substr", "anchor", "big", "blink",
    "bold", "fixed", "fontcolor", "fontsize", "italics", "link", "small", "strike", "sub", "sup",
    "trimLeft", "trimRight"}

  const NumberPrototypeNames: set<string> := {
    "constructor", "toExponential", "toFixed", "toLocaleString", "toPrecision", "toString", "valueOf"}

  const BooleanPrototypeNames: set<string> := {"constructor", "toString", "valueOf"}

  /** The names a document inherits along its prototype chain. */
  function InheritedNames(p: Parsed): (names: set<string>)
    ensures IsDocument(p) ==> ObjectPrototypeNames <= names
  {
    match p
    case Object(_) => ObjectPrototypeNames
    case ArrayDoc(_) => ArrayPrototypeNames + ObjectPrototypeNames
    case StringDoc(_) => StringPrototypeNames + ObjectPrototypeNames
    case NumberDoc(_) => NumberPrototypeNames + ObjectPrototypeNames
    case BoolDoc(_) => BooleanPrototypeNames + ObjectPrototypeNames
    case _ => {}
  }

  /** What `doc[key]` reads: an own property's value, an inherited member
      (never a string and never `undefined`), or `undefined`. */
  datatype Property = Own(v: Value) | Inherited | Missing

  /** `doc[key]` on a document. An array or a string also has its own,
      non-enumerable `length`. */
  function Get(p: Parsed, key: string): (r: Property)
    requires IsDocument(p)
    ensures r.Missing? <==>
              Lookup(OwnEntries(p), key).None? && !(key == "length" && (p.ArrayDoc? || p.StringDoc?)) &&
              key !in InheritedNames(p)
    ensures Lookup(OwnEntries(p), key).Some? ==> r == Own(Lookup(OwnEntries(p), key).value)
    ensures r.Own? && r.v.Str? ==> Lookup(OwnEntries(p), key) == Some(r.v)
  {
    var own := Lookup(OwnEntries(p), key);
    if own.Some? then Own(own.value)
    else if key == "length" && p.ArrayDoc? then Own(Num(|p.items|))
    else if key == "length" && p.StringDoc? then Own(Num(|p.text|))
    else if key in InheritedNames(p) then Inherited
    else Missing
  }

  function BoolText(b: bool): string { if b then "true" else "false" }

  /** `String(v)` in JavaScript for a property value (integers only). */
  function ToText(v: Value): string {
    match v
    case Str(s) => s
    case Num(n) => IntToString(n)
    case Bool(b) => BoolText(b)
    case Null => "null"
    case Composite => "[object Object]"
  }
}
