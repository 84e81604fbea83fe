/** The attributes of a `cis_profile::schema::Profile` that the core reads or
    writes. Every other attribute is kept, unexamined, in `others`. */
module Schema {
  import opened Wrappers
  import opened Json

  /** Timestamps as the profile stores them (RFC 3339 text). */
  type Timestamp = string

  datatype Display = Public | Authenticated | Vouched | Ndaed | Staff | Private

  datatype PublisherAuthority = Ldap | Mozilliansorg | Hris | Cis | AccessProvider

  datatype Metadata = Metadata(
    created: Timestamp,
    lastModified: Timestamp,
    display: Option<Display>,
    verified: bool)

  /** The publisher on whose behalf the attribute was signed, and the
      signature value itself (opaque here). */
  datatype Signature = Signature(publisher: PublisherAuthority, value: string)

  /** A standard attribute: `StandardAttributeString` for `T = string`,
      `StandardAttributeBoolean` for `T = bool`. */
  datatype Attribute<T> = Attribute(value: Option<T>, metadata: Metadata, signature: Signature)

  datatype Profile = Profile(
    active: Attribute<bool>,
    userId: Attribute<string>,
    uuid: Attribute<string>,
    primaryEmail: Attribute<string>,
    firstName: Attribute<string>,
    lastName: Attribute<string>,
    picture: Attribute<string>,
    others: map<string, Json>)
}
