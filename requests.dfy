/**
 * The permission request each hook hands to `HTTP.get`: host and port from
 * the options, a path made of the configured URL joined directly to a
 * resource, and the credentials in the `X-API-TOKEN` and `X-API-KEY` headers.
 */
module Requests {
  import opened JsValues
  import opened Settings

  /** A GET request to the remote permission service. */
  datatype Request = Request(host: JsValue, port: JsValue, path: string, headers: map<string, string>)

  /** The resource that validates the credentials themselves. */
  const KeysMe := "/keys/me"

  /** The four request headers; the credential pair travels as token and key. */
  function Headers(token: string, key: string): (h: map<string, string>)
    ensures h.Keys == {"Accept", "Content-Type", "X-API-TOKEN", "X-API-KEY"}
    ensures h["X-API-TOKEN"] == token && h["X-API-KEY"] == key
    ensures h["Accept"] == "application/json" && h["Content-Type"] == "application/json"
  {
    map["Accept" := "application/json", "Content-Type" := "application/json",
        "X-API-TOKEN" := token, "X-API-KEY" := key]
  }

  /**
   * `url + resource`: the configured URL, turned into text as `+` does,
   * followed immediately by the resource; no separator is inserted.
   */
  function ResourcePath(url: JsValue, resource: string): (p: string)
    ensures |p| == |ToJsString(url)| + |resource|
    ensures p[..|ToJsString(url)|] == ToJsString(url) && p[|ToJsString(url)|..] == resource
  {
    ToJsString(url) + resource
  }

  /** Under one URL, distinct resources are asked for at distinct paths. */
  lemma ResourcePathInjective(url: JsValue, r1: string, r2: string)
    requires ResourcePath(url, r1) == ResourcePath(url, r2)
    ensures r1 == r2
  {
    var n := |ToJsString(url)|;
    assert r1 == ResourcePath(url, r1)[n..];
  }

  /** The request that validates a user: the given credentials, at `url + "/keys/me"`. */
  function AuthRequest(o: OptionValues, username: string, password: string): (q: Request)
    ensures q.host == o.weaviateHost && q.port == o.weaviatePort
    ensures |q.path| == |ToJsString(o.weaviateUrl)| + |KeysMe|
    ensures q.path[..|ToJsString(o.weaviateUrl)|] == ToJsString(o.weaviateUrl)
    ensures q.path[|ToJsString(o.weaviateUrl)|..] == KeysMe
    ensures q.headers.Keys == {"Accept", "Content-Type", "X-API-TOKEN", "X-API-KEY"}
    ensures q.headers["X-API-TOKEN"] == username && q.headers["X-API-KEY"] == password
  {
    Request(o.weaviateHost, o.weaviatePort, ResourcePath(o.weaviateUrl, KeysMe), Headers(username, password))
  }

  /** The request that checks a topic: the stored credentials, at `url + topic`. */
  function TopicRequest(o: OptionValues, topic: string, username: string, password: string): (q: Request)
    ensures q.host == o.weaviateHost && q.port == o.weaviatePort
    ensures |q.path| == |ToJsString(o.weaviateUrl)| + |topic|
    ensures q.path[..|ToJsString(o.weaviateUrl)|] == ToJsString(o.weaviateUrl)
    ensures q.path[|ToJsString(o.weaviateUrl)|..] == topic
    ensures q.headers.Keys == {"Accept", "Content-Type", "X-API-TOKEN", "X-API-KEY"}
    ensures q.headers["X-API-TOKEN"] == username && q.headers["X-API-KEY"] == password
  {
    Request(o.weaviateHost, o.weaviatePort, ResourcePath(o.weaviateUrl, topic), Headers(username, password))
  }

  /**
   * Because nothing separates the URL from the topic, asking about the topic
   * "/keys/me" with the stored credentials is the very request that
   * authenticated them.
   */
  lemma KeysMeTopicIsAuthRequest(o: OptionValues, username: string, password: string)
    ensures TopicRequest(o, KeysMe, username, password) == AuthRequest(o, username, password)
  {
  }

  /** With the default URL, a topic lands directly after "/weaviate/v1". */
  lemma DefaultUrlHasNoSeparator(topic: string)
    ensures ResourcePath(Str("/weaviate/v1"), topic) == "/weaviate/v1" + topic
    ensures ResourcePath(Str("/weaviate/v1"), "sensors") == "/weaviate/v1sensors"
  {
  }
}
