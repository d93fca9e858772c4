/** The user directory's entity and its conversion to the wire DTO. */
module UserConverter {
  import opened Common
  import opened Schema
  import Lists

  /** A user directory entry (`User.kt`). */
  datatype User = User(
    username: Option<string>,
    name: Option<string>,
    email: Option<string>,
    sales: Option<seq<int>>)

  function Transform(user: User): UserDto
  {
    UserDto(user.username, user.name, user.email, user.sales)
  }

  /** Username, name, email and the sales list (same ids, same order) all survive. */
  lemma TransformKeepsEveryField(a: User, b: User)
    ensures Transform(a) == Transform(b) ==> a == b
    ensures Transform(a).sales == a.sales
  {
  }

  function TransformList(users: seq<User>): (r: seq<UserDto>)
    ensures |r| == |users|
    ensures forall i :: 0 <= i < |users| ==> r[i] == Transform(users[i])
  {
    Lists.Map(Transform, users)
  }
}
