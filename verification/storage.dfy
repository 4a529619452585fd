/**
 * The browser's key-value store, seen from one read of one key.
 *
 * The page reads every key as `JSON.parse(localStorage.getItem(key) || fallback)`.
 * The store and the JSON codec are not part of this model; what matters to the
 * page is which of three things that expression meets.
 */
module Storage {

  datatype Stored<T> =
    | Missing        // the key is absent or holds "", so the `|| fallback` literal is parsed instead
    | Parsed(value: T) // the stored text is JSON that decodes to `value`
    | Corrupt        // the stored text is not JSON, so `JSON.parse` throws
}
