/** The user of a client: a name that the user chooses at login. */
module Accounts {
  class Users {
    var username: string

    constructor (username: string)
      ensures GetUsername() == username
    {
      this.username := username;
    }

    function GetUsername(): string
      reads this
    {
      username
    }

    method SetUsername(username: string)
      modifies this`username
      ensures GetUsername() == username
    {
      this.username := username;
    }

    /** A user prints as the name. */
    function ToString(): (r: string)
      reads this
      ensures r == GetUsername()
    {
      username
    }
  }
}
