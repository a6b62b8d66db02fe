/** The acknowledgement the write operations return. */
module Response {

  datatype MutationResponse = MutationResponse(success: bool)

  /** The zero `MutationResponse`, returned beside every error. */
  const Failed := MutationResponse(false)
  const Succeeded := MutationResponse(true)
}
