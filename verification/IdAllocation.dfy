/** Row IDs (newID in internal/service/ticket_service.go): a counter below the number of the node. */
module IdAllocation {
  const ID_SPAN: int := 10_000_000_000

  function NewId(node: int, counter: int): int {
    node * ID_SPAN + counter
  }

  /** The node that a row ID was made for. */
  function HomeOf(id: int): int {
    id / ID_SPAN
  }

  /** While the counter keeps below the span, an ID names its node and its counter. */
  lemma IdsDecode(node: int, counter: int)
    ensures 0 <= counter < 10_000_000_000 <==> HomeOf(NewId(node, counter)) == node
    ensures 0 <= counter < 10_000_000_000 ==> NewId(node, counter) % 10_000_000_000 == counter
  {
  }
}
