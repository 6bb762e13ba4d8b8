/**
 * How `send_logs_to_eventhub.py` decides how to connect: `create_producer_client`
 * picks Entra ID (a credential and a namespace) or a connection string, and
 * `_get_credential` maps an auth-method name to a credential kind. Only the choice
 * and its errors are modelled; the SDK objects become plain values.
 */
module EventHubAuth {
  import opened Wrappers

  /** Python truthiness of an optional string: `None` and `""` are false. */
  predicate Truthy(s: Option<string>)
  {
    s.Some? && s.value != ""
  }

  /** The credential classes, with the arguments `_get_credential` passes them. */
  datatype Credential =
    | ClientSecret(tenantId: string, clientId: string, secret: string)
    | InteractiveBrowser(browserTenant: Option<string>, browserClient: Option<string>)
    | AzureCli
    | ManagedIdentity(identityClient: Option<string>)
    | DefaultAzure

  datatype Transport = AmqpOverWebsocket | Amqp

  /** The two ways of building a producer client. */
  datatype Producer =
    | EntraClient(namespace: string, eventhubName: Option<string>, credential: Credential, transport: Transport)
    | ConnectionStringClient(connectionString: string, eventhubName: Option<string>, transport: Transport)

  const Methods: set<string> := {"client_secret", "interactive", "cli", "managed_identity", "default"}

  const SupportedText: string :=
    "Supported values: 'default', 'client_secret', 'interactive', 'cli', 'managed_identity'"

  /** `str.lower()` on ASCII letters. */
  function LowerChar(ch: char): char
  {
    if 'A' <= ch <= 'Z' then (ch as int - 'A' as int + 'a' as int) as char else ch
  }

  function Lower(s: string): (r: string)
    ensures |r| == |s|
    ensures forall i | 0 <= i < |s| :: r[i] == LowerChar(s[i])
  {
    if s == [] then [] else [LowerChar(s[0])] + Lower(s[1..])
  }

  /** Lower-casing twice is lower-casing once. */
  lemma LowerIdempotent(s: string)
    ensures Lower(Lower(s)) == Lower(s)
  {
    var once := Lower(s);
    var twice := Lower(once);
    forall i | 0 <= i < |s|
      ensures twice[i] == once[i]
    {
      assert LowerChar(LowerChar(s[i])) == LowerChar(s[i]);
    }
  }

  /** The method name a credential answers to (its partner under `GetCredential`). */
  function MethodOf(c: Credential): string
  {
    match c
    case ClientSecret(_, _, _) => "client_secret"
    case InteractiveBrowser(_, _) => "interactive"
    case AzureCli => "cli"
    case ManagedIdentity(_) => "managed_identity"
    case DefaultAzure => "default"
  }

  /**
   * `_get_credential`: the method is lower-cased, then matched against the five
   * supported names; `client_secret` needs all three secrets.
   */
  function GetCredential(authName: string, tenantId: Option<string>, clientId: Option<string>,
                         clientSecret: Option<string>): (r: Result<Credential, string>)
    ensures r.Success? <==>
      Lower(authName) in Methods
      && (Lower(authName) == "client_secret" ==> Truthy(tenantId) && Truthy(clientId) && Truthy(clientSecret))
    ensures r.Success? ==> MethodOf(r.value) == Lower(authName)
  {
    var m := Lower(authName);
    if m == "client_secret" then
      if !(Truthy(tenantId) && Truthy(clientId) && Truthy(clientSecret)) then
        Failure("client_secret auth requires tenant_id, client_id, and client_secret")
      else
        Success(ClientSecret(tenantId.value, clientId.value, clientSecret.value))
    else if m == "interactive" then
      Success(if Truthy(tenantId) then InteractiveBrowser(tenantId, clientId) else InteractiveBrowser(None, None))
    else if m == "cli" then
      Success(AzureCli)
    else if m == "managed_identity" then
      Success(if Truthy(clientId) then ManagedIdentity(clientId) else ManagedIdentity(None))
    else if m == "default" then
      Success(DefaultAzure)
    else
      Failure("Unknown auth_method: " + m + ". " + SupportedText)
  }

  /** The method name is not case-sensitive. */
  lemma GetCredentialIgnoresCase(authName: string, tenantId: Option<string>, clientId: Option<string>,
                                 clientSecret: Option<string>)
    ensures GetCredential(authName, tenantId, clientId, clientSecret)
            == GetCredential(Lower(authName), tenantId, clientId, clientSecret)
  {
    LowerIdempotent(authName);
  }

  /** The legacy `use_managed_identity` flag stands for `"default"` when no method is given. */
  function EffectiveMethod(useManagedIdentity: bool, authMethod: Option<string>): (m: Option<string>)
    ensures Truthy(m) <==> Truthy(authMethod) || useManagedIdentity
    ensures !Truthy(authMethod) && useManagedIdentity ==> m == Some("default")
    ensures Truthy(authMethod) ==> m == authMethod
  {
    if useManagedIdentity && !Truthy(authMethod) then Some("default") else authMethod
  }

  /**
   * `create_producer_client`: Entra ID when a method (after the legacy flag) and a
   * namespace are both given, else the connection string, else `ValueError`.
   */
  function CreateProducerClient(connectionString: Option<string>, eventhubName: Option<string>,
                                namespace: Option<string>, useManagedIdentity: bool, authMethod: Option<string>,
                                tenantId: Option<string>, clientId: Option<string>, clientSecret: Option<string>,
                                useWebsockets: bool): (r: Result<Producer, string>)
  {
    var transport := if useWebsockets then AmqpOverWebsocket else Amqp;
    var chosen := EffectiveMethod(useManagedIdentity, authMethod);
    if Truthy(chosen) && Truthy(namespace) then
      match GetCredential(chosen.value, tenantId, clientId, clientSecret)
      case Success(credential) => Success(EntraClient(namespace.value, eventhubName, credential, transport))
      case Failure(e) => Failure(e)
    else if Truthy(connectionString) then
      Success(ConnectionStringClient(connectionString.value, eventhubName, transport))
    else
      Failure("Either connection_string or (fully_qualified_namespace + auth_method) must be provided.\n"
              + SupportedText)
  }

  /**
   * Which way `create_producer_client` connects: Entra ID exactly when a method (or
   * the legacy flag) and a namespace are present, and then with the credential
   * `_get_credential` gives; otherwise the connection string, if there is one; an
   * error in every other case.
   */
  lemma CreateProducerClientChoice(connectionString: Option<string>, eventhubName: Option<string>,
                                   namespace: Option<string>, useManagedIdentity: bool, authMethod: Option<string>,
                                   tenantId: Option<string>, clientId: Option<string>, clientSecret: Option<string>,
                                   useWebsockets: bool)
    ensures var r := CreateProducerClient(connectionString, eventhubName, namespace, useManagedIdentity, authMethod,
                                          tenantId, clientId, clientSecret, useWebsockets);
      var entra := (Truthy(authMethod) || useManagedIdentity) && Truthy(namespace);
      && (r.Success? && r.value.EntraClient? <==>
           entra && GetCredential(EffectiveMethod(useManagedIdentity, authMethod).value, tenantId, clientId,
                                  clientSecret).Success?)
      && (r.Success? && r.value.ConnectionStringClient? <==> !entra && Truthy(connectionString))
      && (r.Success? ==> r.value.eventhubName == eventhubName
                         && (r.value.transport == AmqpOverWebsocket <==> useWebsockets))
      && (r.Success? && r.value.EntraClient? ==>
           r.value.namespace == namespace.value
           && MethodOf(r.value.credential) == Lower(EffectiveMethod(useManagedIdentity, authMethod).value))
  {
    var r := CreateProducerClient(connectionString, eventhubName, namespace, useManagedIdentity, authMethod,
                                  tenantId, clientId, clientSecret, useWebsockets);
    var transport := if useWebsockets then AmqpOverWebsocket else Amqp;
    var chosen := EffectiveMethod(useManagedIdentity, authMethod);
    if Truthy(chosen) && Truthy(namespace) {
      var c := GetCredential(chosen.value, tenantId, clientId, clientSecret);
      if c.Success? {
        assert r == Success(EntraClient(namespace.value, eventhubName, c.value, transport));
      } else {
        assert r.Failure?;
      }
    } else if Truthy(connectionString) {
      assert r == Success(ConnectionStringClient(connectionString.value, eventhubName, transport));
    } else {
      assert r.Failure?;
    }
  }

  /** With the legacy flag and no method, a namespace gives `DefaultAzureCredential`, whatever else is set. */
  lemma LegacyFlagMeansDefault(connectionString: Option<string>, eventhubName: Option<string>, namespace: string,
                               tenantId: Option<string>, clientId: Option<string>, clientSecret: Option<string>,
                               useWebsockets: bool)
    requires namespace != ""
    ensures CreateProducerClient(connectionString, eventhubName, Some(namespace), true, None, tenantId, clientId,
                                 clientSecret, useWebsockets)
            == Success(EntraClient(namespace, eventhubName, DefaultAzure,
                                   if useWebsockets then AmqpOverWebsocket else Amqp))
  {
    assert Lower("default") == "default";
  }
}
