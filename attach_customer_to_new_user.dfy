/** The `attach_customer_to_new_user` action: when a customer is created
    without a user, create one through the identity service and record the
    new user's id in the customer's data. The HTTP POST is a parameter. */
module AttachCustomerToNewUser {
  import opened Values
  import opened Actions

  /** `n` consecutive characters starting at `first`. */
  function Run(first: char, n: nat): (s: string)
    requires first as int + n <= 0xD800
    ensures |s| == n && forall i :: 0 <= i < n ==> s[i] as int == first as int + i
  {
    seq(n, i requires 0 <= i < n => (first as int + i) as char)
  }

  /** `string.ascii_letters + string.digits`: a-z, A-Z, 0-9. */
  const Alphabet: string := Run('a', 26) + Run('A', 26) + Run('0', 10)

  /** The fixed start of every generated password. */
  const PasswordPrefix: string := "A#2@z"

  /** How many random characters follow the prefix. */
  const RandomLength: nat := 16

  /** The permissions a new user gets when the customer data names none. */
  const DefaultPermissions: Value := VList([VText("l9pro-brandboost-user")])

  predicate IsAsciiAlnum(c: char) {
    ('a' <= c <= 'z') || ('A' <= c <= 'Z') || ('0' <= c <= '9')
  }

  /** The generated password; `entropy(i)` stands for the i-th draw of
      `random.choice`. */
  function Password(entropy: nat -> nat): (p: string)
    ensures |p| == |PasswordPrefix| + RandomLength == 21
    ensures p[..|PasswordPrefix|] == PasswordPrefix
    ensures forall i :: |PasswordPrefix| <= i < |p| ==> IsAsciiAlnum(p[i])
  {
    AlphabetIsAlnum();
    PasswordPrefix + seq(RandomLength, i requires 0 <= i => Alphabet[entropy(i) % |Alphabet|])
  }

  /** The request the action sends to create the user. */
  datatype UserRequest = UserRequest(url: string, payload: Record, bearer: Value)

  /** `requests.post(...).json()`: the parsed response body, or a failure. */
  type Post = UserRequest -> Result<Value>

  /** What the handler returns (or raises), and the request it sent, if any. */
  datatype Sent = Sent(result: Result<Value>, request: Option<UserRequest>)

  /** The user payload built from the customer's data. */
  function Payload(nd: Record, password: string): Record {
    map[
      "email" := Get(nd, "email"),
      "user_name" := Get(nd, "username"),
      "password" := VText(password),
      "first_name" := Get(nd, "first_name"),
      "last_name" := Get(nd, "last_name"),
      "phone" := Get(nd, "phone"),
      "reset_password" := VBool(false),
      "permissions" := GetOr(nd, "permissions", DefaultPermissions)]
  }

  /** `handler(jwt, new_data, old_data, well_known_urls, method)`. */
  function Handler(c: ActionCall, post: Post, entropy: nat -> nat): (s: Sent)
    ensures s.request.Some? ==> c.newData.VMap? && !Truthy(Get(c.newData.fields, "user"))
    ensures s.result.Ok? ==> s.result.value.VMap?
  {
    if !c.newData.VMap? then Sent(Err(NoAttribute), None)
    else
      var nd := c.newData.fields;
      if Truthy(Get(nd, "user")) then Sent(Ok(c.newData), None)
      else if !c.wellKnownUrls.VMap? then Sent(Err(NotSubscriptable), None)
      else if "zeauth" !in c.wellKnownUrls.fields then Sent(Err(KeyMissing("zeauth")), None)
      else
        match c.wellKnownUrls.fields["zeauth"]
        case VText(base) =>
          var req := UserRequest(base + "/users/", Payload(nd, Password(entropy)), c.jwt);
          Sent(Attach(nd, post(req)), Some(req))
        case _ => Sent(Err(External("invalid URL")), None)
  }

  /** `new_data['user'] = resp['id']; return new_data`. */
  function Attach(nd: Record, resp: Result<Value>): Result<Value> {
    match resp
    case Err(err) => Err(err)
    case Ok(VMap(body)) =>
      if "id" in body then Ok(VMap(nd["user" := body["id"]])) else Err(KeyMissing("id"))
    case Ok(_) => Err(NotSubscriptable)
  }

  // ---------------------------------------------------------------- properties

  /** Every character of the alphabet is an ASCII letter or digit. */
  lemma AlphabetIsAlnum()
    ensures forall i :: 0 <= i < |Alphabet| ==> IsAsciiAlnum(Alphabet[i])
  {
    forall i | 0 <= i < |Alphabet| ensures IsAsciiAlnum(Alphabet[i]) {
      if i < 26 {
        assert Alphabet[i] == Run('a', 26)[i];
      } else if i < 52 {
        assert Alphabet[i] == Run('A', 26)[i - 26];
      } else {
        assert Alphabet[i] == Run('0', 10)[i - 52];
      }
    }
  }

  /** The position of an ASCII letter or digit in the alphabet. */
  function Code(c: char): (k: nat)
    requires IsAsciiAlnum(c)
    ensures k < |Alphabet| && Alphabet[k] == c
  {
    if 'a' <= c <= 'z' then
      assert Alphabet[c as int - 'a' as int] == Run('a', 26)[c as int - 'a' as int];
      c as int - 'a' as int
    else if 'A' <= c <= 'Z' then
      assert Alphabet[26 + c as int - 'A' as int] == Run('A', 26)[c as int - 'A' as int];
      26 + c as int - 'A' as int
    else
      assert Alphabet[52 + c as int - '0' as int] == Run('0', 10)[c as int - '0' as int];
      52 + c as int - '0' as int
  }

  /** The draws that make `random.choice` pick the characters of `tail`. */
  function DrawsFor(tail: string): nat -> nat
    requires forall i :: 0 <= i < |tail| ==> IsAsciiAlnum(tail[i])
  {
    (i: nat) => if i < |tail| then Code(tail[i]) else 0
  }

  /** Conversely, every prefix-and-sixteen-alphanumerics string is a
      password the handler can generate. */
  lemma EveryPasswordReachable(tail: string)
    requires |tail| == RandomLength
    requires forall i :: 0 <= i < |tail| ==> IsAsciiAlnum(tail[i])
    ensures Password(DrawsFor(tail)) == PasswordPrefix + tail
  {
    var entropy := DrawsFor(tail);
    var draws := seq(RandomLength, i requires 0 <= i => Alphabet[entropy(i) % |Alphabet|]);
    forall i | 0 <= i < RandomLength ensures draws[i] == tail[i] {
      assert entropy(i) == Code(tail[i]);
    }
    assert draws == tail;
  }

  /** A customer that already has a user comes back unchanged and nothing is sent. */
  lemma ExistingUserKept(c: ActionCall, post: Post, entropy: nat -> nat)
    requires c.newData.VMap? && Truthy(Get(c.newData.fields, "user"))
    ensures Handler(c, post, entropy) == Sent(Ok(c.newData), None)
  {
  }

  /** Otherwise, once the identity service's URL is known, exactly one
      request is sent: to `<zeauth>/users/`, carrying the customer's contact
      fields, `username` as `user_name`, a generated password, no forced
      reset, and the customer's permissions or the default ones. */
  lemma UserRequested(c: ActionCall, post: Post, entropy: nat -> nat, base: string)
    requires c.newData.VMap? && !Truthy(Get(c.newData.fields, "user"))
    requires c.wellKnownUrls.VMap? && "zeauth" in c.wellKnownUrls.fields
    requires c.wellKnownUrls.fields["zeauth"] == VText(base)
    ensures var s := Handler(c, post, entropy);
      && s.request.Some?
      && s.request.value.url == base + "/users/"
      && s.request.value.bearer == c.jwt
      && var p := s.request.value.payload;
      && p.Keys == {"email", "user_name", "password", "first_name", "last_name", "phone", "reset_password", "permissions"}
      && (forall k :: k in {"email", "first_name", "last_name", "phone"} ==> p[k] == Get(c.newData.fields, k))
      && p["user_name"] == Get(c.newData.fields, "username")
      && p["password"] == VText(Password(entropy))
      && p["reset_password"] == VBool(false)
      && p["permissions"] == (if "permissions" in c.newData.fields then c.newData.fields["permissions"] else DefaultPermissions)
  {
  }

  /** The handler succeeds after a request exactly when the response is an
      object with an `id`; then only `user` changes, set to that id. */
  lemma OnlyUserAttached(c: ActionCall, post: Post, entropy: nat -> nat)
    requires Handler(c, post, entropy).request.Some?
    ensures var s := Handler(c, post, entropy);
      var resp := post(s.request.value);
      && (s.result.Ok? <==> resp.Ok? && resp.value.VMap? && "id" in resp.value.fields)
      && (s.result.Ok? ==>
            && s.result.value.fields.Keys == c.newData.fields.Keys + {"user"}
            && s.result.value.fields["user"] == resp.value.fields["id"]
            && forall k :: k in c.newData.fields && k != "user" ==> s.result.value.fields[k] == c.newData.fields[k])
  {
  }
}
