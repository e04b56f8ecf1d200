# Twitcher security proxy: OAuth2 validator and OWS forwarding, in Dafny

This project models the two pieces of the Twitcher security proxy that make decisions.

- **The OAuth2 request validator** (`OAuth2`, oauth2.dfy). It covers the client-credentials grant of section 4.4 of RFC 6749 and bearer tokens as in RFC 6750.
  - Client lookup in the client table, and client authentication by exact secret equality.
  - The grant-type check (only `client_credentials`) and the scope check.
  - The random-token validator over the token table. It checks that the token exists, that it has not expired, and that it shares a requested scope.
  - The signed and custom validators, over an abstract outcome of the JWT library.
  - The settings switch that picks one validator.
  - The database session is a class (`DbSession`) whose client and token tables are sequences. A `filter(...).first()` query is the first row that matches. `save_bearer_token` appends a row.
  - The OAuth request is a class (`OAuthRequest`). `authenticate_client` writes its `client` and `user` fields.
- **The OWS proxy** (`OwsProxy`, owsproxy.dfy).
  - Building the target URL, and sanitising the forwarded headers. Both are methods with step-by-step updates, each proved equal to a specification function.
  - The choice between the streamed path and the buffered path.
  - The hop-by-hop filter over the six names the source lists (the list of section 13.5.1 of RFC 2068).
  - The buffered path's policy: the status check, the content-type allow-list, the capability-URL rewrite decision and the single relayed header.
  - The protected base path and base URL.
  - The order in which `owsproxy_view` classifies its outcomes. The view records which adapter instance ran each hook.
- **Shared modules.**
  - `Text` (text.dfy) holds the Python string operations the core uses. Case mapping and whitespace are ASCII.
  - `Common` (common.dfy) holds `Option`, `Result` and bytes.

Code outside these files enters as parameters:
- the HTTP client (`Env.transport`);
- `is_valid_url`, `replace_caps_url` and `request.route_url`;
- the service registry's answer;
- the value of `request.is_verified`;
- the adapter factory;
- the JWT library's decision;
- the current time.

The content-type allow-list is modelled as written. A missing comma fuses `"text/xml;charset=ISO-8859-1"` and `"application/vnd.ogc.se_xml"` into one entry. As a result, `application/vnd.ogc.se_xml` is rejected (`ServiceExceptionXmlRejected`). No entry that contains a `;` can ever match, because the base media type never contains one (`ParameterisedEntriesNeverMatch`).

Notes on the source's behaviour:
- A failed or raising service lookup makes the view return AccessFailed. It is not reclassified as NoApplicableCode.
- `_send_request` returns its errors as responses rather than raising them, so the response hook also receives them.
- The rewrite decision compares the FULL content type with three exact strings, not the base media type.
- The signed validator lets the JWT library's exceptions escape. Only the custom validator turns them into `false`.
- The streamed path relays `Proxy-Authorization`, `TE` and `Trailer` headers, which section 13.5.1 of RFC 2616 counts as hop-by-hop; the source's list is the older one of RFC 2068, which has `Public` instead.

## Model

| member | source | states |
|---|---|---|
| `OAuth2.ClientIndex` | twitcher/oauth2.py:77-80 | the index found is the first client row with that `client_id`; none is found only when no row has it |
| `OAuth2.GetClient` | twitcher/oauth2.py:77-80 | `_get_client` yields the first matching client row, and nothing exactly when no row matches |
| `OAuth2.GetDefaultScopes` | twitcher/oauth2.py:82-88 | the default scopes of the first client matching the REQUEST's `client_id` (the argument is ignored), `[]` when there is none |
| `OAuth2.AuthenticateClient` | twitcher/oauth2.py:90-100 | unknown client: false, `request.client` and `request.user` untouched; known client: both set to the request's `client_id`, and the result is true iff the presented secret equals the stored one exactly |
| `OAuth2.ValidateGrantType` | twitcher/oauth2.py:102-103 | true iff the grant type is `client_credentials`, the only entry of `default_grants` |
| `OAuth2.AllIn` | twitcher/oauth2.py:111-111 | the `all(...)` expression is true iff every requested scope is in the allowed list |
| `OAuth2.ValidateScopes` | twitcher/oauth2.py:105-111 | false for an unknown client; otherwise true iff every requested scope is among that client's default scopes |
| `OAuth2.EmptyScopesAccepted` | twitcher/oauth2.py:108-111 | a known client accepts an empty scope list |
| `OAuth2.DbSession.Add` | twitcher/oauth2.py:121-121 | `dbsession.add` appends exactly that row to the token table and leaves the client table alone |
| `OAuth2.SaveBearerToken` | twitcher/oauth2.py:113-121 | the random-token validator appends `Token(client_id=request.client_id, **token_response)`; the other validators leave the tables unchanged |
| `OAuth2.TokenIndex` | twitcher/oauth2.py:139-140 | the index found is the first token row with that access token; none only when no row has it |
| `OAuth2.GetToken` | twitcher/oauth2.py:139-142 | the token query yields the first row with that access token, nothing exactly when none has it |
| `OAuth2.ValidateRandomToken` | twitcher/oauth2.py:126-150 | false for an unknown token; for the first matching row, true iff it has no expiry or `now` is not after it, AND the requested scopes are empty or share one with the token's |
| `OAuth2.ValidateBearerToken` | twitcher/oauth2.py:126-188 | random: the table-based check, independent of the JWT outcome; signed: when the JWT decodes, true iff its claims are non-empty (an empty claims dictionary is falsy), and the library's exception escapes otherwise; custom: never raises, true iff the JWT decodes; signed and custom ignore the token table and the scopes |
| `OAuth2.SelectTokenKind` | twitcher/oauth2.py:237-250 | the random validator iff the `twitcher.token.type` setting is absent or is neither `signed_token` nor `custom_token`; `signed_token` selects the signed validator and `custom_token` the custom one, each exactly for that setting value; the signed and custom validators get their certificate, key, secret and issuer settings |
| `OAuth2.Setting` | twitcher/oauth2.py:237-248 | `settings.get(key)` is present exactly when the key is set, and then holds its value |
| `OAuth2.TokenRow` | twitcher/oauth2.py:120-120 | the stored row takes `client_id` from the request and the token type, access token, refresh token, expiry and scopes from the token response |
| `OAuth2.GetTokenAppendFresh` | twitcher/oauth2.py:118-142 | after a token with a fresh access token is saved, the token query finds exactly that token |
| `OAuth2.IssuedTokenValidates` | twitcher/oauth2.py:118-150 | a random token that was just saved validates when presented, unexpired, with the scopes it was issued for |
| `OAuth2.ValidationStableUnderInsert` | twitcher/oauth2.py:118-150 | saving a token with another access token does not change the validation result of any presented token |
| `Text.Lower` | twitcher/owsproxy.py:88-98 | `lower()` keeps the length and maps each character to its lower-case form (used for the service type and the header names) |
| `Text.Upper` | twitcher/owsproxy.py:90-102 | `upper()` keeps the length and maps each character to its upper-case form (used for the forwarded method) |
| `Text.Contains` | twitcher/owsproxy.py:108-108 | the `in` test on strings is true iff the part occurs at some offset of the text |
| `Text.BeforeFirst` | twitcher/owsproxy.py:118-118 | `split(";")[0]` is the longest prefix without a `;`: a prefix, free of `;`, followed by `;` or the end, and the whole string when it holds no `;` |
| `Text.TrimRight` | twitcher/owsproxy.py:151-151 | `rstrip('/')` leaves a prefix that does not end with `/`, and removes only `/` characters |
| `Text.Strip` | twitcher/owsproxy.py:151-151 | `strip()` leaves an infix that neither starts nor ends with whitespace, and removes only whitespace on each side |
| `OwsProxy.BuildTargetUrl` | twitcher/owsproxy.py:74-78 | the URL built by the successive appends is the service URL, then `/extra_path` when that is non-empty, then `?params` when those are non-empty |
| `OwsProxy.TargetUrlSplits` | twitcher/owsproxy.py:74-78 | with no `?` in the service URL or extra path, the URL splits back at its first `?` into the path part and exactly the parameters; with no parameters it is the path part |
| `OwsProxy.SanitizeHeaders` | twitcher/owsproxy.py:82-84 | the forwarded headers have the inbound keys minus `Host` plus `Accept-Encoding`; `Accept-Encoding` is `None`; every other key keeps its inbound value |
| `OwsProxy.IsStreamed` | twitcher/owsproxy.py:86-88 | the streamed path is taken iff the service type is present and non-empty and its lower-case form is not `wps` (absent type defaults to `wps`) |
| `OwsProxy.WpsInAnyCaseIsBuffered` | twitcher/owsproxy.py:86-88 | `WPS`, `Wps` and an absent type take the buffered path; `wms` is streamed |
| `OwsProxy.StreamedHeaders` | twitcher/owsproxy.py:96-98 | a header is relayed iff it is an upstream header whose lower-case name is not one of the six hop-by-hop names; its value is unchanged; every other upstream header is relayed, so no hop-by-hop header is relayed in any letter case |
| `OwsProxy.StreamedResponse` | twitcher/owsproxy.py:97-99 | the streamed response keeps the upstream status and the whole body, with the filtered headers |
| `OwsProxy.ResponseOk` | twitcher/owsproxy.py:107-107 | the HTTP client's `resp.ok` is false exactly for a 4xx client error or a 5xx server error status |
| `OwsProxy.ContentType` | twitcher/owsproxy.py:116-117 | the content type is present exactly when some upstream header is named `Content-Type` in any letter case, and it is that header's value |
| `OwsProxy.BaseMediaType` | twitcher/owsproxy.py:118-118 | the base media type is the prefix of the content type before its first `;`, the whole type when it has none |
| `OwsProxy.ContentTypeAllowed` | twitcher/owsproxy.py:118-118 | a content type is allowed iff its base media type equals an allow-list entry, and only entries without `;` can be that entry |
| `OwsProxy.PublicUrl` | twitcher/owsproxy.py:130-133 | the rewrite target is `purl` when it is a valid URL, else the proxy's route URL for the service name |
| `OwsProxy.BufferedReply` | twitcher/owsproxy.py:107-145 | not-OK without `ExceptionReport` in the text: AccessFailed; a present content type whose base type is not allowed: AccessForbidden, and only then; a rewrite type whose rewriter fails: AccessFailed("Could not decode content."); AccessFailed arises only in those two cases, and a response passing both checks is otherwise always relayed; a relayed response keeps the upstream status and only `Content-Type`; its body is byte-identical unless the full content type is one of the three rewrite types, in which case it is the rewriter's output for the public URL and the service URL |
| `OwsProxy.PlainTypeAllowedIffListed` | twitcher/owsproxy.py:116-118 | a content type without parameters is allowed iff it is listed |
| `OwsProxy.ParametersIgnored` | twitcher/owsproxy.py:118-118 | `base;params` is allowed iff `base` is listed, whatever the parameters |
| `OwsProxy.UnlistedTypeForbidden` | twitcher/owsproxy.py:116-121 | an OK response with an unlisted parameterless type such as `text/plain` yields AccessForbidden, never a body |
| `OwsProxy.ServiceExceptionXmlRejected` | twitcher/owsproxy.py:35-36 | because of the missing comma, `application/vnd.ogc.se_xml` is not allowed |
| `OwsProxy.ParameterisedEntriesNeverMatch` | twitcher/owsproxy.py:32-50 | the fused entry is the concatenation of the two strings; it and the other two entries that contain `;` never match any base media type |
| `OwsProxy.OutboundFor` | twitcher/owsproxy.py:74-103 | the upstream request carries the upper-cased inbound method, the inbound body, the target URL, the sanitised headers, the path choice and the `verify` flag, which defaults to true |
| `OwsProxy.Forward` | twitcher/owsproxy.py:70-145 | a transport exception yields AccessFailed; otherwise the streamed or the buffered reply, as the path choice says |
| `OwsProxy.SendRequest` | twitcher/owsproxy.py:70-145 | the step-by-step `_send_request` computes exactly `Forward` |
| `OwsProxy.BasePath` | twitcher/owsproxy.py:148-151 | `/ows` when the setting is absent; the result never starts or ends with whitespace |
| `OwsProxy.BasePathDropsTrailingSlashes` | twitcher/owsproxy.py:151-151 | a path without blanks (such as `/ows/` or `/twitcher/ows/`) loses exactly its trailing slashes: the result is a prefix of it that does not end with `/`, and only `/` characters are removed |
| `OwsProxy.StripLeavesBlankFree` | twitcher/owsproxy.py:151-151 | `strip()` leaves a string unchanged when neither end is a blank |
| `OwsProxy.BaseUrl` | twitcher/owsproxy.py:154-158 | the base URL is the Twitcher URL followed by the base path |
| `OwsProxy.Reraise` | twitcher/owsproxy.py:183-188 | OWS exceptions, of any kind including those of adapter hooks, are re-raised unchanged; any other exception becomes NoApplicableCode with its message |
| `OwsProxy.OwsProxyView` | twitcher/owsproxy.py:161-188 | a missing service or a lookup exception returns AccessFailed whatever the verification; an unverified request raises AccessForbidden, with no hook run and nothing forwarded; a raising request hook is re-raised (OWS exceptions) or turned into NoApplicableCode, with nothing forwarded; hooks run only for verified requests, at most two, all on the adapter of the original request |
| `OwsProxy.VerifiedRequestForwardedThroughOneAdapter` | twitcher/owsproxy.py:173-182 | a verified request forwards the hooked request and returns what the same adapter's response hook makes of the reply |

## Left out

- Token generation is not modelled. This covers `generate_access_token` of all three validators, `random_token_generator`, `signed_token_generator`, `jwt.encode` and `uuid4`. They are randomness and cryptography.
- JWT decoding and signature checks are not modelled, nor the read of the certificate file. The model takes the library's decision as a parameter (`JwtOutcome`). The decision records whether the decoded claims dictionary is empty, which is all the signed validator's truthiness depends on.
- `models.Token` is not part of this model. Its conversion of `expires_in` into an absolute `expires` does not appear: `TokenResponse` carries the stored expiry directly.
- The `twitcher.oauth` flag, the `twitcher.token.expires_in` setting and the route and grant registration in `includeme` are not modelled. They are framework wiring.
- `generate_token_view` and `register_client_app_view` are not modelled. They are framework endpoints.
- Logging is not modelled.
- The network is a parameter. That covers `requests.request`, TLS verification, the 64 KiB chunking of `BufferedResponse` and `iter_content`. Streaming is modelled as relaying the whole body.
- `replace_caps_url`, `is_valid_url`, `get_twitcher_url` and `request.route_url` are uninterpreted parameters. `twitcher.utils` is not part of this model.
- The `requests` library is not part of this model. Its `resp.ok` is taken to be false exactly when `raise_for_status` would raise, that is for status codes 400 to 599 (`ResponseOk`).
- `PublicUrl`: a `purl` that is absent counts as invalid. The model never applies `is_valid_url` to `None`.
- `owsproxy_defaultconfig`, `includeme` of the proxy and the adapter factory are not modelled; they are framework wiring. The adapter's own hooks are arbitrary functions.
- `twitcher/rpcinterface.py` and the schema migration are not part of this model.
- `Text.Lower`, `Text.Upper` and `Text.Strip` cover only ASCII. Python also maps and strips non-ASCII characters.
- Header maps do not keep insertion order.
  - Inbound headers are a plain map with exact keys. This is the dictionary copy the source makes, which is case-sensitive.
  - Upstream headers are a map from lower-case name to the field as sent. This is how the HTTP client's case-insensitive dictionary stores them.
- `Service.serviceType`: a type key that is present but holds `None` is not represented; an absent key is.
- `OwsProxy.BasePath`: the contract states the default and the trimmed ends. It does not state the slash stripping for every input. `BasePathDropsTrailingSlashes` states it for every path without blanks; a path with trailing blanks (`/ows/ `) keeps its slash, which the contract does not spell out.
