/** The plain value classes the connector exchanges with the mail server.
    Each Java class's `equals` compares all its fields, which is what datatype
    equality does. */
module Beans {
  import opened Outcomes

  /** An account, known by its mail address. */
  datatype User = User(email: string)

  /** One alias source of a user. */
  datatype Alias = Alias(source: string)

  /** One forward target of a user. */
  datatype Forward = Forward(mailAddress: string)

  /** One address mapping target of a user, as the connector manages it. */
  datatype AddressMapping = AddressMapping(mapping: string)

  /** A mapping as the server lists it: its kind ("Address", "Regex", ...) and its target. */
  datatype AddressMappingDto = AddressMappingDto(mappingType: string, mapping: string)

  /** A storage quota in bytes; a Java long, with -1 meaning unlimited. */
  datatype QuotaSize = QuotaSize(size: int)

  /** The optional names of a domain contact. */
  datatype ContactNames = ContactNames(firstname: Option<string>, surname: Option<string>)
}
