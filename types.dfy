/** The records of TodoMobile/app/types.ts. */
module Types {

  /** A todo as the server returns it; `id`, `createdAt` and `user` are assigned by the server. */
  datatype Todo = Todo(id: int, title: string, description: string, completed: bool, createdAt: string, user: int)

  datatype User = User(id: int, username: string, email: string)

  /** The body of a successful login: both tokens and the user. */
  datatype AuthResponse = AuthResponse(refresh: string, access: string, user: User)
}
