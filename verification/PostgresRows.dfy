/** The rows of the Postgres tables that hold Resources and chunks. */
module PostgresRows {
  import opened Wrappers

  datatype ResourceRow = ResourceRow(
    contentType: string, content: Option<string>, isJson: bool, sizeBytes: nat, version: nat, metaVersion: Option<nat>,
    custom: Option<string>, deleted: bool, createdAt: string, updatedAt: string, createdBy: Option<string>, epoch: Option<string>)

  datatype ChunkRow = ChunkRow(contentType: string, bytes: string, size: nat, version: nat)

  /** The columns that are derived from others agree with them. */
  predicate RowConsistent(json: iset<string>, row: ResourceRow) {
    && row.deleted == row.content.None? && row.isJson == (row.contentType in json)
    && row.sizeBytes == if row.content.Some? then |row.content.value| else 0
  }

  predicate ChunkConsistent(row: ChunkRow) {
    row.size == |row.bytes|
  }
}
