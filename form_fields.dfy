/**
 * The form state shared by the sign-up form and the profile dialog: flat text fields plus one
 * nested `address` object, updated by field name (`address.city` reaches inside the object).
 */
module FormFields {
  import opened Wrappers
  import opened Text

  const ADDRESS_PREFIX := "address."

  datatype Fields = Fields(top: map<string, string>, address: map<string, string>)

  /** Where a field name points: a flat field, or a key of the address object. */
  datatype Path = Top(name: string) | Address(key: string)

  /** `field.startsWith('address.')` selects the address object, and `field.split('.')[1]` the key in it. */
  function PathOf(field: string): (p: Path)
    ensures StartsWith(field, ADDRESS_PREFIX) ==>
      p.Address? && '.' !in p.key && StartsWith(field[|ADDRESS_PREFIX|..], p.key)
      && (|ADDRESS_PREFIX| + |p.key| < |field| ==> field[|ADDRESS_PREFIX| + |p.key|] == '.')
    ensures !StartsWith(field, ADDRESS_PREFIX) ==> p == Top(field)
  {
    if StartsWith(field, ADDRESS_PREFIX) then Address(SegmentAfter(field, ADDRESS_PREFIX)) else Top(field)
  }

  /** `address.` followed by a dot-free key names exactly that key of the address object. */
  lemma {:induction false} AddressFieldNamesKey(key: string)
    requires '.' !in key
    ensures PathOf(ADDRESS_PREFIX + key) == Address(key)
  {
    var field := ADDRESS_PREFIX + key;
    assert field[..|ADDRESS_PREFIX|] == ADDRESS_PREFIX;
    assert field[|ADDRESS_PREFIX|..] == key;
    var p := PathOf(field);
    assert p.Address?;
    assert forall j | 0 <= j < |key| :: field[|ADDRESS_PREFIX| + j] == key[j] && key[j] != '.';
    if |p.key| < |key| {
      assert false;
    }
    assert p.key == key[..|p.key|] == key;
  }

  function Get(f: Fields, p: Path): Option<string> {
    match p
    case Top(name) => if name in f.top then Some(f.top[name]) else None
    case Address(key) => if key in f.address then Some(f.address[key]) else None
  }

  /**
   * `handleInputChange(field, value)`. A field named exactly `address` would replace the nested
   * object by a string; no input of either form uses that name.
   */
  function SetField(f: Fields, field: string, value: string): (r: Fields)
    requires field != "address"
    ensures Get(r, PathOf(field)) == Some(value)
    ensures forall p: Path :: p != PathOf(field) ==> Get(r, p) == Get(f, p)
  {
    match PathOf(field)
    case Top(name) => f.(top := f.top[name := value])
    case Address(key) => f.(address := f.address[key := value])
  }

  /** Two names that point to the same place are interchangeable: `address.city` and `address.city.x` write the same key. */
  lemma SamePathSameEffect(f: Fields, a: string, b: string, value: string)
    requires a != "address" && b != "address" && PathOf(a) == PathOf(b)
    ensures SetField(f, a, value) == SetField(f, b, value)
  {
  }

  /** Typing into one field and then another leaves both values in place when they point to different places. */
  lemma IndependentFields(f: Fields, a: string, b: string, x: string, y: string)
    requires a != "address" && b != "address" && PathOf(a) != PathOf(b)
    ensures Get(SetField(SetField(f, a, x), b, y), PathOf(a)) == Some(x)
    ensures Get(SetField(SetField(f, a, x), b, y), PathOf(b)) == Some(y)
  {
  }
}
