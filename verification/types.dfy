/** The enumerations the client's authorization logic consumes. The full
    enumerations live in twitchAPI/types.py, which is not part of this model;
    only the constants the endpoint methods name are spelled out. */
module Types {

  /** An OAuth scope. Scopes are compared by identity only; `OtherScope`
      stands for every constant of the enumeration no endpoint here requires. */
  datatype AuthScope =
    | AnalyticsReadExtension
    | AnalyticsReadGames
    | BitsRead
    | ClipsEdit
    | ModerationRead
    | OtherScope(name: string)

  /** Which credential a request must be made with. `NoAuth` is the library's
      `AuthType.NONE`: any credential that happens to be present is attached. */
  datatype AuthType = NoAuth | App | User

  /** The two independent credentials a client holds. */
  datatype Side = AppSide | UserSide
}
