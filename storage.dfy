/**
 * The device key-value store the client keeps its session in (AsyncStorage), with the
 * structured values the client writes into it under fixed keys.
 */
module Storage {

  /** The credential pair kept under "tokens"; an empty string stands for a missing field. */
  datatype TokenPair = TokenPair(access: string, refresh: string)

  /** The profile kept under "userInfo" by the session store. */
  datatype UserInfo = UserInfo(id: int, email: string, name: string, userType: string)

  /** A stored value: one of the two JSON records the client writes, or other text. */
  datatype Stored = Tokens(pair: TokenPair) | Info(info: UserInfo) | Plain(text: string)

  type Items = map<string, Stored>

  const TokensKey: string := "tokens"
  const UserKey: string := "user"
  const UserInfoKey: string := "userInfo"
  const UserTokenKey: string := "userToken"

  /** The store itself: each write or removal replaces one key and leaves the others alone. */
  class AsyncStorage {
    var items: Items

    constructor (items: Items)
      ensures this.items == items
    {
      this.items := items;
    }

    method SetItem(key: string, value: Stored)
      modifies this
      ensures items == old(items)[key := value]
    {
      items := items[key := value];
    }

    method RemoveItem(key: string)
      modifies this
      ensures items == old(items) - {key}
    {
      items := items - {key};
    }
  }

  /** What JSON.parse makes of the "tokens" entry. */
  datatype ParsedTokens = NoTokens | Parsed(pair: TokenPair) | Unparsable

  /** The "tokens" entry as the interceptors read it: a missing or empty entry is falsy and
      skipped; a stored pair parses to itself; a stored profile parses to an object with
      neither token; any other text is taken not to be JSON. */
  function ReadTokens(items: Items): (t: ParsedTokens)
    ensures TokensKey !in items ==> t == NoTokens
    ensures TokensKey in items && items[TokensKey].Tokens? ==> t == Parsed(items[TokensKey].pair)
  {
    if TokensKey !in items then NoTokens
    else match items[TokensKey]
      case Tokens(p) => Parsed(p)
      case Info(_) => Parsed(TokenPair("", ""))
      case Plain(s) => if s == "" then NoTokens else Unparsable
  }
}
