/** The normalized coverage model every report format is parsed into. */
module Profile {
  /** A range of statements with a hit count. */
  datatype Block = Block(startLine: int, startCol: int, endLine: int, endCol: int, numStmts: int, count: int)

  datatype File = File(path: string, blocks: seq<Block>)

  /** Holds statements, so spans lines that are executable. */
  predicate Statement(b: Block) {
    b.numStmts > 0
  }

  /** Holds statements and ran, so covers the lines it spans. */
  predicate Ran(b: Block) {
    b.numStmts > 0 && b.count > 0
  }

  function TotalStmts(blocks: seq<Block>): int {
    if blocks == [] then 0 else blocks[0].numStmts + TotalStmts(blocks[1..])
  }

  function CoveredStmts(blocks: seq<Block>): int {
    if blocks == [] then 0
    else (if blocks[0].count > 0 then blocks[0].numStmts else 0) + CoveredStmts(blocks[1..])
  }
}
