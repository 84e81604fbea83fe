/** New profiles, `src/create.rs`: the printable empty profiles and a new
    user stamped onto the null skeleton. The skeleton is the result of
    parsing the bundled `user_profile_null.json` (given, as a parse result),
    `blank` is `Profile::default()`, the clock reading is `now`, and
    pretty-printing is the `pretty` oracle. */
module Create {
  import opened Wrappers
  import opened Schema

  const OnlySupported: string := "only: null, create, rust supported"

  /** `update_metadata`: both timestamps become `now`, the display level
      becomes `display`; `verified` is left alone. */
  function UpdateMetadata(m: Metadata, display: Option<Display>, now: Timestamp): (m': Metadata)
    ensures m'.created == now && m'.lastModified == now
    ensures m'.display == display
    ensures m'.verified == m.verified
  {
    m.(lastModified := now, created := now, display := display)
  }

  /** Pretty-printing a profile, with the error text of `empty_profile`. */
  function Printed(pretty: Profile -> Result<string, string>, p: Profile): (r: Result<string, string>)
    ensures pretty(p).Success? ==> r == pretty(p)
    ensures pretty(p).Failure? ==> r == Failure("unable to print profile: " + pretty(p).error)
  {
    match pretty(p)
    case Success(text) => Success(text)
    case Failure(e) => Failure("unable to print profile: " + e)
  }

  /** `empty_profile`: only the types "null" (the skeleton) and "rust" (the
      default profile) are printed; any other type, "create" included, is
      refused with the same message. */
  function EmptyProfile(typ: string, skeleton: Result<Profile, string>, blank: Profile,
                        pretty: Profile -> Result<string, string>): (r: Result<string, string>)
    ensures typ != "null" && typ != "rust" ==> r == Failure(OnlySupported)
    ensures typ == "null" && skeleton.Failure? ==> r == Failure("error reading skeleton " + skeleton.error)
    ensures typ == "null" && skeleton.Success? ==> r == Printed(pretty, skeleton.value)
    ensures typ == "rust" ==> r == Printed(pretty, blank)
  {
    var p :=
      if typ == "null" then
        match skeleton
        case Success(sk) => Success(sk)
        case Failure(e) => Failure("error reading skeleton " + e)
      else if typ == "rust" then Success(blank)
      else Failure(OnlySupported);
    match p
    case Failure(e) => Failure(e)
    case Success(profile) => Printed(pretty, profile)
  }

  /** `create_new_user`: the skeleton with primary email, user id, active
      flag and first name set, and the last name when one is given; each
      attribute set is stamped with the one reading of the clock. The email
      and names are private; user id and active get no display level.
      Everything else, signatures included, is the skeleton's. */
  method CreateNewUser(userId: string, primaryEmail: string, firstName: string, lastName: Option<string>,
                       now: Timestamp, skeleton: Result<Profile, string>)
    returns (r: Result<Profile, string>)
    ensures skeleton.Failure? ==> r == Failure(skeleton.error)
    ensures skeleton.Success? ==> r.Success?
    ensures r.Success? ==>
      var sk, p := skeleton.value, r.value;
      && p.primaryEmail == sk.primaryEmail.(value := Some(primaryEmail),
                                             metadata := UpdateMetadata(sk.primaryEmail.metadata, Some(Private), now))
      && p.userId == sk.userId.(value := Some(userId),
                                 metadata := UpdateMetadata(sk.userId.metadata, None, now))
      && p.active == sk.active.(value := Some(true),
                                 metadata := UpdateMetadata(sk.active.metadata, None, now))
      && p.firstName == sk.firstName.(value := Some(firstName),
                                       metadata := UpdateMetadata(sk.firstName.metadata, Some(Private), now))
      && (lastName.Some? ==>
            p.lastName == sk.lastName.(value := lastName,
                                       metadata := UpdateMetadata(sk.lastName.metadata, Some(Private), now)))
      && (lastName.None? ==> p.lastName == sk.lastName)
      && p.uuid == sk.uuid && p.picture == sk.picture && p.others == sk.others
  {
    if skeleton.Failure? {
      return Failure(skeleton.error);
    }
    var p := skeleton.value;
    p := p.(primaryEmail := p.primaryEmail.(value := Some(primaryEmail)));
    p := p.(primaryEmail := p.primaryEmail.(metadata := UpdateMetadata(p.primaryEmail.metadata, Some(Private), now)));
    p := p.(userId := p.userId.(value := Some(userId)));
    p := p.(userId := p.userId.(metadata := UpdateMetadata(p.userId.metadata, None, now)));
    p := p.(active := p.active.(value := Some(true)));
    p := p.(active := p.active.(metadata := UpdateMetadata(p.active.metadata, None, now)));
    p := p.(firstName := p.firstName.(value := Some(firstName)));
    p := p.(firstName := p.firstName.(metadata := UpdateMetadata(p.firstName.metadata, Some(Private), now)));
    if lastName.Some? {
      p := p.(lastName := p.lastName.(value := lastName));
      p := p.(lastName := p.lastName.(metadata := UpdateMetadata(p.lastName.metadata, Some(Private), now)));
    }
    r := Success(p);
  }
}
