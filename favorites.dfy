/**
 * The favourites store of the web front end: a Pinia store whose state is one plain
 * object, `favorites`, mapping a sign's id to the sign.
 *
 * JavaScript turns the id into a property key: a number becomes its decimal text, so
 * the number 5 and the string "5" name the same entry.  Only integers are modelled,
 * and only as plain decimal text, which is how JavaScript writes integers below
 * 10^21 in magnitude (exactly so below 2^53). The `in` operator also sees
 * the properties every plain object inherits from `Object.prototype`; `delete` only
 * removes an object's own property. The model keeps both: `in` on the store is own
 * keys or inherited names, and removing an inherited name changes nothing.
 */
module Favorites {
  import opened Text

  /** A sign id as the front end holds it. */
  datatype Id = NumId(n: int) | TextId(s: string)

  /** A sign as received from the API: its id and the rest of its JSON, kept whole. */
  datatype Sign = Sign(id: Id, rest: string)

  /** The property key an id names: the decimal text of an integer, or the string. */
  function Key(id: Id): string
  {
    match id
    case NumId(n) => if n < 0 then "-" + Itoa(-n) else Itoa(n)
    case TextId(s) => s
  }

  /** The property names a plain object inherits from `Object.prototype`. */
  const Inherited: set<string> := {
    "constructor", "hasOwnProperty", "isPrototypeOf", "propertyIsEnumerable",
    "toLocaleString", "toString", "valueOf", "__proto__",
    "__defineGetter__", "__defineSetter__", "__lookupGetter__", "__lookupSetter__"
  }

  /** `key in obj` for a plain object whose own properties are `own`. */
  predicate In(own: map<string, Sign>, key: string)
  {
    key in own || key in Inherited
  }

  /** The favourites after `toggleFavorite(sign)`: a key `in` the object is deleted
      (a no-op for an inherited name), any other key is set to the sign. */
  function Toggled(own: map<string, Sign>, sign: Sign): map<string, Sign>
  {
    var key := Key(sign.id);
    if In(own, key) then own - {key} else own[key := sign]
  }

  /** What the store keeps: every entry sits under its own sign's key, and no entry
      shadows an inherited name. */
  ghost predicate WellKeyed(own: map<string, Sign>)
  {
    forall k | k in own :: k !in Inherited && Key(own[k].id) == k
  }

  class FavoritesStore {
    var favorites: map<string, Sign>

    /** The initial state: an empty object. */
    constructor ()
      ensures favorites == map[]
      ensures WellKeyed(favorites)
    {
      favorites := map[];
    }

    /** The `isFavorite` getter. */
    predicate IsFavorite(id: Id)
      reads this
    {
      In(favorites, Key(id))
    }

    /** The `toggleFavorite` action. */
    method ToggleFavorite(sign: Sign)
      modifies this
      ensures favorites == Toggled(old(favorites), sign)
      ensures WellKeyed(old(favorites)) ==> WellKeyed(favorites)
    {
      var key := Key(sign.id);
      if key in favorites || key in Inherited {
        favorites := favorites - {key};
        return;
      }
      favorites := favorites[key := sign];
    }
  }

  /* ================================================================ properties */

  /** Every id names a different key than any other integer id: distinct integers
      never share an entry. */
  lemma {:induction false} NumKeysDistinct(a: int, b: int)
    ensures Key(NumId(a)) == Key(NumId(b)) <==> a == b
  {
    if Key(NumId(a)) == Key(NumId(b)) {
      var ka, kb := Key(NumId(a)), Key(NumId(b));
      ItoaSpec(if a < 0 then -a else a);
      ItoaSpec(if b < 0 then -b else b);
      if a < 0 && b < 0 {
        assert Itoa(-a) == ka[1..] == kb[1..] == Itoa(-b);
      }
    }
  }

  /** An integer id is never an inherited name: every numeric sign can be a favourite. */
  lemma NumKeyNotInherited(n: int)
    ensures Key(NumId(n)) !in Inherited
  {
    var k := Key(NumId(n));
    ItoaSpec(if n < 0 then -n else n);
    assert k[0] == '-' || IsDigit(k[0]);
    forall name | name in Inherited
      ensures name[0] != '-' && !IsDigit(name[0])
    {
    }
  }

  /** `isFavorite(id)` holds exactly when the id names an own entry, for every id
      that is not an inherited name. */
  lemma IsFavoriteOwnKey(store: FavoritesStore, id: Id)
    requires Key(id) !in Inherited
    ensures store.IsFavorite(id) <==> Key(id) in store.favorites
  {
  }

  /** Toggling a sign whose id is an own entry removes that entry and no other. */
  lemma ToggleRemoves(own: map<string, Sign>, sign: Sign)
    requires Key(sign.id) in own
    ensures Toggled(own, sign).Keys == own.Keys - {Key(sign.id)}
    ensures forall k | k in Toggled(own, sign) :: Toggled(own, sign)[k] == own[k]
  {
  }

  /** Toggling a sign whose id is absent maps its key to that sign. */
  lemma ToggleInserts(own: map<string, Sign>, sign: Sign)
    requires !In(own, Key(sign.id))
    ensures Toggled(own, sign) == own[Key(sign.id) := sign]
    ensures Toggled(own, sign)[Key(sign.id)] == sign
  {
  }

  /** Toggling flips `in` for the sign's key, unless it is an inherited name, and
      leaves every other key and its value as they were. */
  lemma ToggleFlips(own: map<string, Sign>, sign: Sign)
    ensures var key := Key(sign.id);
      && (key !in Inherited ==> (In(Toggled(own, sign), key) <==> !In(own, key)))
      && (key in Inherited ==> In(Toggled(own, sign), key))
      && (forall k | k != key :: k in Toggled(own, sign) <==> k in own)
      && (forall k | k != key && k in own :: Toggled(own, sign)[k] == own[k])
  {
  }

  /** Toggling the same absent sign twice gives back the original favourites. */
  lemma ToggleTwice(own: map<string, Sign>, sign: Sign)
    requires !In(own, Key(sign.id))
    ensures Toggled(Toggled(own, sign), sign) == own
  {
    var key := Key(sign.id);
    assert Toggled(Toggled(own, sign), sign) == own[key := sign] - {key};
    assert own[key := sign] - {key} == own;
  }

  /** A sign with an inherited name for its id can never be a favourite: on a well-
      keyed store its toggle changes nothing. */
  lemma ToggleInheritedIsNoop(own: map<string, Sign>, sign: Sign)
    requires WellKeyed(own) && Key(sign.id) in Inherited
    ensures Toggled(own, sign) == own
  {
    assert Key(sign.id) !in own;
  }
}
