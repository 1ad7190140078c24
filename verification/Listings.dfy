/** Hashed collections are walked in no particular order. */
module Listings {
  // `names` lists the keys of a collection in some order, each once.
  ghost predicate Lists(names: seq<string>, keys: set<string>) {
    (forall n :: n in names <==> n in keys) && forall i, j :: 0 <= i < j < |names| ==> names[i] != names[j]
  }
}
