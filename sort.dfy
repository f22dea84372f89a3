/** `getSortCriteria`: the Mongo sort order for a `sort` query value, falling
    back to newest first. */
module Sort {
  import opened Wrappers

  /** `{ createdAt: 1 }` or `{ createdAt: -1 }`. */
  datatype SortOrder = SortOrder(createdAt: int)

  const NewestFirst: SortOrder := SortOrder(-1)
  const OldestFirst: SortOrder := SortOrder(1)

  /** What `sortOptions[key]` evaluates to: one of the object's own entries,
      or a member every object inherits from `Object.prototype`. */
  datatype Lookup = Own(order: SortOrder) | Inherited(name: string)

  /** The properties every plain object inherits. */
  const PrototypeMembers: seq<string> := [
    "constructor", "hasOwnProperty", "isPrototypeOf", "propertyIsEnumerable",
    "toLocaleString", "toString", "valueOf", "__proto__",
    "__defineGetter__", "__defineSetter__", "__lookupGetter__", "__lookupSetter__"]

  /** `sortOptions[key]`; `None` is `undefined`. */
  function PropertyOf(key: string): Option<Lookup> {
    if key == "created_desc" then Some(Own(NewestFirst))
    else if key == "created_asc" then Some(Own(OldestFirst))
    else if key in PrototypeMembers then Some(Inherited(key))
    else None
  }

  /** The function as written: `sortOptions[sort] ?? sortOptions.created_desc`. */
  function GetSortCriteriaAsWritten(sort: string): (r: Lookup)
    ensures r.Inherited? <==> sort in PrototypeMembers
    ensures r.Inherited? ==> r.name == sort
    ensures r.Own? ==> (r.order == OldestFirst <==> sort == "created_asc")
    ensures r.Own? ==> r.order == NewestFirst || r.order == OldestFirst
  {
    PropertyOf(sort).GetOr(Own(NewestFirst))
  }

  /** The fallback misses inherited names: `sort=constructor` yields the
      `Object` constructor function, not a sort order. */
  lemma InheritedNameEscapesFallback()
    ensures GetSortCriteriaAsWritten("constructor") == Inherited("constructor")
    ensures !GetSortCriteriaAsWritten("__proto__").Own?
  {
  }

  /** The lookup restricted to the object's own two entries: every input
      gets one of the two orders, oldest first exactly for `created_asc`. */
  function GetSortCriteria(sort: string): (o: SortOrder)
    ensures o == NewestFirst || o == OldestFirst
    ensures o == OldestFirst <==> sort == "created_asc"
  {
    if sort == "created_asc" then OldestFirst else NewestFirst
  }

  /** Away from the inherited names the corrected function agrees with the
      one as written; on them only the corrected one yields a sort order. */
  lemma CorrectedAgrees(sort: string)
    ensures sort !in PrototypeMembers ==> GetSortCriteriaAsWritten(sort) == Own(GetSortCriteria(sort))
    ensures sort in PrototypeMembers ==> GetSortCriteriaAsWritten(sort) == Inherited(sort)
  {
  }
}
