/** Values the client keeps in the browser's local storage, as the components
    read them back: a key may be missing, and a JSON text may fail to parse
    or parse to `null`. Reading and writing the storage itself is I/O and is
    not modelled; what was read is passed in. */
module Storage {
  import opened Wrappers
  import opened Text

  /** What `JSON.parse` made of a stored text. */
  datatype Parsed<T> = Unparseable | JsonNull | Value(v: T)

  /** A stored JSON text and its parse. */
  datatype StoredJson<T> = StoredJson(text: string, parsed: Parsed<T>)

  /** The session user record the login page stores (`{ id, email, name, role }`);
      every field may be missing. */
  datatype UserRecord = UserRecord(
    id: Option<string>,
    email: Option<string>,
    name: Option<string>,
    role: Option<string>)

  /** A stored key is truthy: present and not the empty string. */
  predicate IsStored<T>(s: Option<StoredJson<T>>) {
    s.Some? && s.value.text != ""
  }
}
