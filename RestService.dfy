/** The sample REST service: one client session with its authenticated
    flag, and the service's working directory as a map from file name to
    content. */
module RestService {
  import opened Common

  datatype JsonValue = JInt(n: int) | JStr(s: string)

  datatype Body = Json(fields: map<string, JsonValue>) | Text(content: string) | NoBody

  /** A response: status code, body, and the content-length header when
      one is set. */
  datatype Response = Response(status: int, body: Body, contentLength: Option<nat>)

  datatype Method = GET | HEAD

  const Forbidden := "Access is forbidden"
  const NotFound := "File not found"
  const Rejected := "The provided credentials were not accepted."

  function Success(): Response {
    Response(200, Json(map["message" := JStr("Success")]), None)
  }

  /** `make_error`: the status code is set on the response and repeated in
      the JSON body beside the message. */
  function MakeError(statusCode: int, message: string): (r: Response)
    ensures r.status == statusCode && r.body.Json? && r.contentLength.None?
    ensures r.body.fields.Keys == {"status", "message"}
    ensures r.body.fields["status"] == JInt(r.status) && r.body.fields["message"] == JStr(message)
  {
    Response(statusCode, Json(map["status" := JInt(statusCode), "message" := JStr(message)]), None)
  }

  /** The credentials `auth` accepts; a missing form field is `None`. */
  predicate Accepted(username: Option<string>, password: Option<string>) {
    username == Some("test") && password == Some("test")
  }

  /** An uploaded file: its file name and its content. */
  datatype Upload = Upload(filename: string, content: string)

  /** Whether `open(name, 'wb')` in the service's working directory can
      create the file. The directory holds files only, so the empty name,
      '.', '..', a name with a NUL character and a path into a
      sub-directory all fail. */
  predicate Saveable(name: string) {
    name != "" && name != "." && name != ".." && '/' !in name && '\0' !in name
  }

  class Service {
    var authenticated: bool
    var files: map<string, string>

    constructor (files: map<string, string>)
      ensures !authenticated && this.files == files
    {
      authenticated := false;
      this.files := files;
    }

    /** `auth`: the right credentials set the session flag and succeed;
        anything else is a 401 and leaves the flag as it was. */
    method Auth(username: Option<string>, password: Option<string>) returns (r: Response)
      modifies this
      ensures files == old(files)
      ensures Accepted(username, password) ==> authenticated && r == Success()
      ensures !Accepted(username, password) ==> authenticated == old(authenticated) && r == MakeError(401, Rejected)
    {
      if username == Some("test") && password == Some("test") {
        authenticated := true;
        return Success();
      }
      return MakeError(401, Rejected);
    }

    /** `upload` (PUT /files): 403 without a session; with one, the file is
        saved under its own name. A request without a file fails on
        `filedata.filename`, and a name that cannot be opened for writing
        fails in `filedata.save`; the server answers both with a 500. */
    method PutFile(file: Option<Upload>) returns (r: Response)
      modifies this
      ensures authenticated == old(authenticated)
      ensures !authenticated ==> r == MakeError(403, Forbidden) && files == old(files)
      ensures authenticated && file.None? ==> r.status == 500 && files == old(files)
      ensures authenticated && file.Some? && !Saveable(file.value.filename) ==> r.status == 500 && files == old(files)
      ensures authenticated && file.Some? && Saveable(file.value.filename) ==>
                r == Success() && files == old(files)[file.value.filename := file.value.content]
    {
      if !authenticated {
        return MakeError(403, Forbidden);
      }
      if file.None? || !Saveable(file.value.filename) {
        return Response(500, NoBody, None);
      }
      files := files[file.value.filename := file.value.content];
      return Success();
    }

    /** `files` (GET or HEAD /files/<filename>): 403 without a session, 404
        for a missing file; otherwise the content length, and for GET the
        content itself. */
    method GetFile(filename: string, verb: Method) returns (r: Response)
      ensures !authenticated ==> r == MakeError(403, Forbidden)
      ensures authenticated && filename !in files ==> r == MakeError(404, NotFound)
      ensures authenticated && filename in files ==>
                && r.status == 200 && r.contentLength == Some(|files[filename]|)
                && r.body == (if verb == HEAD then NoBody else Text(files[filename]))
    {
      if !authenticated {
        return MakeError(403, Forbidden);
      }
      if filename !in files {
        return MakeError(404, NotFound);
      }
      var size := |files[filename]|;
      if verb == HEAD {
        return Response(200, NoBody, Some(size));
      }
      return Response(200, Text(files[filename]), Some(size));
    }
  }

  /** A session that logs in and uploads a file under a name the server
      can save gets back what it uploaded, and a HEAD request reports its
      length; any other name is refused with a 500 and changes nothing. */
  method UploadThenDownload(files: map<string, string>, upload: Upload)
    returns (login: Response, put: Response, head: Response, get: Response, stored: map<string, string>)
    ensures login.status == 200
    ensures put.status == 200 <==> Saveable(upload.filename)
    ensures !Saveable(upload.filename) ==> put.status == 500 && stored == files
    ensures Saveable(upload.filename) ==> head == Response(200, NoBody, Some(|upload.content|))
    ensures Saveable(upload.filename) ==> get == Response(200, Text(upload.content), Some(|upload.content|))
  {
    var service := new Service(files);
    login := service.Auth(Some("test"), Some("test"));
    put := service.PutFile(Some(upload));
    head := service.GetFile(upload.filename, HEAD);
    get := service.GetFile(upload.filename, GET);
    stored := service.files;
  }

  /** Without logging in, nothing is stored and nothing is served. */
  method AnonymousRequests(files: map<string, string>, upload: Upload, name: string)
    returns (put: Response, get: Response, stored: map<string, string>)
    ensures put.status == 403 && get.status == 403 && stored == files
  {
    var service := new Service(files);
    put := service.PutFile(Some(upload));
    get := service.GetFile(name, GET);
    stored := service.files;
  }
}
