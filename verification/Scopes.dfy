/** Symbol items and name lookup through the scope stack, on the maps that the symbol tables refine. */
module Scopes {
  import opened Tokens

  datatype Item = Item(name: string, uid: nat, ty: Type, mutable: bool, init: bool, nilable: bool)

  type Scope = map<string, Item>

  /** The item of the innermost scope that knows `id`. */
  function Search(scopes: seq<Scope>, id: string): Option<Item> {
    if scopes == [] then None
    else if id in scopes[0] then Some(scopes[0][id])
    else Search(scopes[1..], id)
  }

  /** The innermost initialised item named `id`. */
  function SearchInitialized(scopes: seq<Scope>, id: string): Option<Item> {
    if scopes == [] then None
    else if id in scopes[0] && scopes[0][id].init then Some(scopes[0][id])
    else SearchInitialized(scopes[1..], id)
  }

  function Lookup(globals: Scope, id: string): Option<Item> {
    if id in globals then Some(globals[id]) else None
  }
}
