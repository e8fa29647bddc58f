/** Shapes of the persisted entities the core reads and writes. The database
    layer itself (checador/database.py) is not part of this model; only the
    fields the modelled code touches appear here. */
module Store {

  type UserId = int
  type PunchId = int

  /** A user row: `id`, `name`, `employee_code`, `active`. */
  datatype User = User(id: UserId, name: string, employeeCode: string, active: bool)

  /** An enrolled template row: owner, path of its `.xyt` file, quality. */
  datatype Template = Template(userId: UserId, templatePath: string, quality: int)

  /** A punch row; timestamps are carried already rendered by `isoformat()`. */
  datatype Punch = Punch(
    id: PunchId,
    userId: UserId,
    timestampUtc: string,
    timestampLocal: string,
    punchType: string,
    matchScore: int,
    deviceId: string)

  /** Sync status of a punch: not yet sent, accepted by the server, or
      rejected with the recorded error message. */
  datatype SyncStatus = Unsynced | Synced | SyncError(message: string)
}
