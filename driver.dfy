/**
 * What the service sees of the MySQL driver: the error record it logs,
 * and the error codes the model raises or classifies.
 */
module Driver {

  /** The four fields of a driver error that the service logs. */
  datatype DriverError = DriverError(code: string, errno: int, sqlState: string, sqlMessage: string)

  // Codes the pool's error listener singles out.
  const ProtocolConnectionLost := "PROTOCOL_CONNECTION_LOST"
  const ConCountError := "ER_CON_COUNT_ERROR"
  const ConnectionRefusedCode := "ECONNREFUSED"

  // Server errors that the schema statements can raise by themselves.
  const NoSuchDatabase := DriverError("ER_BAD_DB_ERROR", 1049, "42000", "Unknown database")
  const NoDatabaseSelected := DriverError("ER_NO_DB_ERROR", 1046, "3D000", "No database selected")
  const NoSuchTable := DriverError("ER_NO_SUCH_TABLE", 1146, "42S02", "Table doesn't exist")
  const MissingParentTable := DriverError("ER_FK_CANNOT_OPEN_PARENT", 1824, "HY000", "Failed to open the referenced table")
}
