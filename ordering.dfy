/** `asc`, `desc`, `noOrder` and `width`: the orderer expressions. None of
    them has children; `asc`/`desc` only check that their argument is a
    `width()` node and then drop it. */
module Ordering {
  import opened Wrappers
  import opened Types
  import opened Ast

  /** `new Asc(by)`: construction fails unless `by` is a `Width` instance. */
  function MakeAsc(orderBy: Lit): (r: Result<Expr>)
    ensures r.Ok? <==> orderBy == LExpr(Width)
    ensures r.Ok? ==> r.value == Asc && LooseType(r.value) == Some(TOrderer) && ChildNames(r.value) == []
  {
    if orderBy == LExpr(Width) then Ok(Asc) else Err("asc(): invalid first parameter 'by'")
  }

  /** `new Desc(by)`: as `asc`. */
  function MakeDesc(orderBy: Lit): (r: Result<Expr>)
    ensures r.Ok? <==> orderBy == LExpr(Width)
    ensures r.Ok? ==> r.value == Desc && LooseType(r.value) == Some(TOrderer) && ChildNames(r.value) == []
  {
    if orderBy == LExpr(Width) then Ok(Desc) else Err("desc(): invalid first parameter 'by'")
  }

  /** `new NoOrder()`: no arguments, no children, an orderer. */
  function MakeNoOrder(): (e: Expr)
    ensures LooseType(e) == Some(TOrderer) && ChildNames(e) == []
  {
    NoOrder
  }

  /** `new Width()`: a reference to the `width` property of the viz. */
  function MakeWidth(): (e: Expr)
    ensures LooseType(e) == Some(TPropertyReference) && ChildNames(e) == []
  {
    Width
  }

  /** Only a `width()` node is accepted by either orderer: a number, a
      category or any other expression is refused. */
  lemma OnlyWidthOrders(e: Expr)
    requires e != Width
    ensures MakeAsc(LExpr(e)).Err? && MakeDesc(LExpr(e)).Err?
    ensures MakeAsc(LNum(0.0)).Err? && MakeAsc(LUndefined).Err?
  {
  }
}
