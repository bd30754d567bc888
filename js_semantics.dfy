/** The part of JavaScript's `key in object` operator that the page component
    relies on, when the object is an array: the operator asks whether the array
    has a PROPERTY named `key` (its own or an inherited one), not whether `key`
    is one of its elements. */
module JsSemantics {

  /** The decimal digit character for `d`. */
  function Digit(d: nat): (c: char)
    requires d < 10
    ensures '0' <= c <= '9'
  {
    ['0', '1', '2', '3', '4', '5', '6', '7', '8', '9'][d]
  }

  /** The canonical property key of array index `n`: its decimal numeral
      without leading zeros, as `String(n)` gives it. */
  function DecimalString(n: nat): (s: string)
    ensures |s| > 0
    ensures forall k :: 0 <= k < |s| ==> '0' <= s[k] <= '9'
    ensures n >= 10 ==> s[0] != '0'
  {
    if n < 10 then [Digit(n)] else DecimalString(n / 10) + [Digit(n % 10)]
  }

  /** Names every array inherits from `Array.prototype` and
      `Object.prototype` (ECMAScript 2023). */
  predicate IsInheritedArrayKey(key: string)
  {
    key in {
      "at", "concat", "constructor", "copyWithin", "entries", "every", "fill",
      "filter", "find", "findIndex", "findLast", "findLastIndex", "flat",
      "flatMap", "forEach", "includes", "indexOf", "join", "keys",
      "lastIndexOf", "map", "pop", "push", "reduce", "reduceRight", "reverse",
      "shift", "slice", "some", "sort", "splice", "toLocaleString",
      "toReversed", "toSorted", "toSpliced", "toString", "unshift", "values",
      "with", "hasOwnProperty", "isPrototypeOf", "propertyIsEnumerable",
      "valueOf", "__proto__", "__defineGetter__", "__defineSetter__",
      "__lookupGetter__", "__lookupSetter__"
    }
  }

  /** `key in arr` for a dense array of `len` elements: true exactly for the
      index keys "0" .. String(len - 1), for "length" and for inherited names.
      Any other key present is a numeral; a name with a letter in it that is
      neither "length" nor inherited is absent, whatever the elements are. */
  predicate ArrayHasKey(key: string, len: nat): (b: bool)
    ensures key == "length" || IsInheritedArrayKey(key) ==> b
    ensures b && key != "length" && !IsInheritedArrayKey(key) ==>
              |key| > 0 && forall k :: 0 <= k < |key| ==> '0' <= key[k] <= '9'
  {
    || key == "length"
    || (exists i :: 0 <= i < len && key == DecimalString(i))
    || IsInheritedArrayKey(key)
  }
}
