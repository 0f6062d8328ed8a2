/** The authorization gate of the admin commands (main.py, is_admin). */
module Access {

  /** ADMIN_IDS: the user ids allowed to use the admin commands. */
  const AdminIds: seq<int> := [123456789]

  /** is_admin: membership of the user id in AdminIds. */
  predicate IsAdmin(userId: int)
    ensures IsAdmin(userId) <==> exists i :: 0 <= i < |AdminIds| && AdminIds[i] == userId
  {
    userId in AdminIds
  }
}
