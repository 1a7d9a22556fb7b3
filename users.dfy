/** The domain user (src/ArtemisBanking.Core.Domain/Entities/User.cs): four
    role factories that all start inactive, the activation switch and the
    full-name rendering. Every field except `isActive` is fixed at
    construction, so it is a `const`. */
module Users {

  datatype UserRole = Client | Admin | Cashier | Merchant

  /** `$"{first} {last}"`, the full-name rendering shared by the entity and
      by every service map that shows a client's name. */
  function FullName(first: string, last: string): string
  {
    first + " " + last
  }

  /** The rendering keeps both names whole, in order, separated by the one
      space at position `|first|`. */
  lemma FullNameParts(first: string, last: string)
    ensures var s := FullName(first, last);
      |s| == |first| + |last| + 1 && s[..|first|] == first && s[|first|] == ' ' && s[|first| + 1..] == last
  {
    var s := FullName(first, last);
    assert s[..|first|] == first;
    assert s[|first| + 1..] == last;
  }

  class User {
    const username: string
    const email: string
    const firstName: string
    const lastName: string
    const nationalId: string
    const role: UserRole
    var isActive: bool

    constructor CreateClient(username: string, email: string, firstName: string, lastName: string, nationalId: string)
      ensures this.username == username && this.email == email && this.firstName == firstName
      ensures this.lastName == lastName && this.nationalId == nationalId
      ensures role == Client && !isActive
    {
      this.username, this.email, this.firstName, this.lastName, this.nationalId := username, email, firstName, lastName, nationalId;
      role := Client;
      isActive := false;
    }

    constructor CreateAdmin(username: string, email: string, firstName: string, lastName: string, nationalId: string)
      ensures this.username == username && this.email == email && this.firstName == firstName
      ensures this.lastName == lastName && this.nationalId == nationalId
      ensures role == Admin && !isActive
    {
      this.username, this.email, this.firstName, this.lastName, this.nationalId := username, email, firstName, lastName, nationalId;
      role := Admin;
      isActive := false;
    }

    constructor CreateCashier(username: string, email: string, firstName: string, lastName: string, nationalId: string)
      ensures this.username == username && this.email == email && this.firstName == firstName
      ensures this.lastName == lastName && this.nationalId == nationalId
      ensures role == Cashier && !isActive
    {
      this.username, this.email, this.firstName, this.lastName, this.nationalId := username, email, firstName, lastName, nationalId;
      role := Cashier;
      isActive := false;
    }

    constructor CreateMerchant(username: string, email: string, firstName: string, lastName: string, nationalId: string)
      ensures this.username == username && this.email == email && this.firstName == firstName
      ensures this.lastName == lastName && this.nationalId == nationalId
      ensures role == Merchant && !isActive
    {
      this.username, this.email, this.firstName, this.lastName, this.nationalId := username, email, firstName, lastName, nationalId;
      role := Merchant;
      isActive := false;
    }

    /** Sets `isActive`; calling it again changes nothing more. */
    method Activate()
      modifies this`isActive
      ensures isActive
    {
      isActive := true;
    }

    method Deactivate()
      modifies this`isActive
      ensures !isActive
    {
      isActive := false;
    }

    function GetFullName(): (s: string)
      ensures s == FullName(firstName, lastName)
    {
      FullName(firstName, lastName)
    }
  }
}
