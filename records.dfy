/**
 * The records the recorder keeps for one exchange. Headers map a name to the
 * first value the framework delivered; params map a name to its values.
 */
module Records {
  import opened Dict

  /** An extra parameter declared with AddParam before the request. */
  datatype Param = Param(name: string, example: string, description: string, typ: string, required: bool)

  /** `verb` is the HTTP method (GET, POST, ...). */
  datatype Request = Request(
    uri: string,
    verb: string,
    headers: Dict<string>,
    params: Dict<seq<string>>,
    body: string)

  datatype Response = Response(headers: Dict<string>, body: string, statusCode: int)

  datatype Call = Call(group: string, name: string, request: Request, response: Response)

  /** One recorded exchange in a group of the apib.go registry. */
  datatype Resource = Resource(call: Call, params: Dict<seq<string>>, extraParams: seq<Param>)

  /** The status code and the empty header map and body of a zero-valued Go Response. */
  const ZeroResponse := Response([], "", 0)
}
