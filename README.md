# Zowe client SDK core: validators, TSO responses, REST requests, connections and file descriptors

This project is a Dafny model of a small core of the Zowe client Java SDK. The SDK talks to z/OSMF, the REST interface of z/OS, and to z/OS over SSH. The modelled parts are:

- **FileUtils** (`file_utils.dfy`): the two Unix System Services argument validators. `validatePermission` accepts a permission whose `String.length()` is nine, counted in UTF-16 code units as Java does, made of three permitted `rwx` triples. `validatePath` accepts an absolute path. Both regular expressions are written as whole-string match predicates. Lemmas show what each one accepts: groups of permitted triples for the permission, and no line terminator after the leading `/` for the path.
- **StartStopResponses and SendResponse** (`tso_responses.dfy`): how a TSO reply from z/OSMF is classified and turned into text. The StringBuilder loop is a method proved against the in-order concatenation `Joined`. The class keeps its final fields consistent with the reply; its getters and setters are modelled. The SendResponse constructor substitutes an empty list for a null one.
- **ZosConnection and SshConnection** (`connections.dfy`): the connection descriptors.
  - `ZosConnection` is a class with a mutable cookie.
  - Its `equals` is proved reflexive, symmetric and transitive. It equals field-wise comparison, with an absent cookie read as the default value.
  - `SshConnection` is a value. Its `equals` is value equality and its `hashCode` is Java's `Objects.hash`, in 32-bit wrap-around arithmetic. The two are proved consistent, and the hash is expanded into its closed form.
- **PutJsonZosmfRequest and GetStreamZosmfRequest** (`rest_requests.dfy`): the two request variants.
  - Their standard headers are functions on header maps; the stream variant adds a Basic Authorization entry (section 2 of RFC 7617).
  - Their `executeRequest` checks the preconditions in the source's order. It then issues at most one call to a transport given as a parameter, and reports the call it issued.
- **JobFile and UnixFile with their Builders** (`job_files.dfy`, `unix_files.dfy`): each builder's fields may be null. Each setter changes only its own field. `JobFile`'s `build` turns every null into an empty Optional; `UnixFile`'s `build` copies the fields, nulls included, and its getters turn a null into an empty Optional.

`lang.dfy` holds the Java vocabulary the model shares:
- a nullable reference and `java.util.Optional`;
- the exception kinds, as a `Result`;
- `Optional.ofNullable`, `Optional.of` and `Objects.requireNonNullElse`;
- 32- and 64-bit integer ranges, and 32-bit two's-complement wrap-around (`Wrap32`);
- the UTF-16 code units of a string and Java's `String.length()`.

Where the documented behaviour and the code differ, the model follows the code:
- Both `executeRequest` methods document only `ZosmfRequestException`. But a missing url fails `ValidateUtils.checkNullParameter` first (`src/main/java/zowe/client/sdk/rest/PutJsonZosmfRequest.java` line 58, `src/main/java/zowe/client/sdk/rest/GetStreamZosmfRequest.java` line 47). The model reports `NullParameter("url is null")`.
- `setCookie` is documented to remove the HTTP header authentication (`src/main/java/zowe/client/sdk/core/ZosConnection.java` lines 113-116). Yet `GetStreamZosmfRequest.setStandardHeaders` always sets an Authorization header, and `executeRequest` attaches the cookie as well. So cookie and Basic authentication are not mutually exclusive there.

A builder that sets the same field twice keeps the last value; this follows from the setter postconditions. The same contracts give the UnixFile parsing example of `src/test/java/zowe/client/sdk/parse/UnixFileParseResponseTest.java` (lines 49-58): after setting name and mode, building gives getters that return them.

## Model

| member | source | states |
|---|---|---|
| `FileUtils.PermissionPatternIsGroups` | src/main/java/zowe/client/sdk/utility/FileUtils.java:47-49 | the pattern `(rwx|rw-|r--|r-x|--x|-wx|-w-)+` matches a whole string iff it is one or more groups of three characters, each one of the seven permitted triples |
| `FileUtils.NineCharPatternIsTriplet` | src/main/java/zowe/client/sdk/utility/FileUtils.java:46-49 | for a nine-character string the pattern matches iff each of its three groups is a permitted triple |
| `Lang.JavaLength` | src/main/java/zowe/client/sdk/utility/FileUtils.java:46 | `String.length()` is the number of characters plus the number of supplementary characters (those outside the Basic Multilingual Plane, stored as surrogate pairs); it equals the number of characters iff there is none |
| `Lang.Utf16UnitsCount` | src/main/java/zowe/client/sdk/utility/FileUtils.java:46 | the UTF-16 encoding of a string has one code unit per character plus one more per supplementary character |
| `FileUtils.PermissionPatternAtJavaLengthNine` | src/main/java/zowe/client/sdk/utility/FileUtils.java:46-49 | an accepted permission has `String.length()` 9, and at that length the pattern accepts exactly the strings of three permitted triples |
| `FileUtils.ValidatePermission` | src/main/java/zowe/client/sdk/utility/FileUtils.java:44-53 | null fails first with the null-parameter error "permission value is null"; a `String.length()` other than 9 (UTF-16 code units) fails with the illegal-parameter error "specify 9 character permission"; at length 9 the value is accepted iff each group is a permitted triple, else "specify valid permission value" (illegal state); on acceptance the input comes back unchanged |
| `FileUtils.ValidatePermissionIdempotent` | src/main/java/zowe/client/sdk/utility/FileUtils.java:52 | validating an accepted permission again accepts it with the same value |
| `FileUtils.NoAccessTripleRejected` | src/main/java/zowe/client/sdk/utility/FileUtils.java:47-50 | "---" is not a permitted triple: `rwx------` is refused with "specify valid permission value", while `rwxr-xr-x` is accepted |
| `FileUtils.SupplementaryCharCountsTwice` | src/main/java/zowe/client/sdk/utility/FileUtils.java:46 | eight permission characters followed by U+1F600 have Java length 10 and fail the length check with "specify 9 character permission", not the pattern check |
| `FileUtils.DotStarHasNoLineTerminator` | src/main/java/zowe/client/sdk/utility/FileUtils.java:64 | `.*` matches a whole string iff none of its characters is a line terminator (\n, \r, U+0085, U+2028, U+2029) |
| `FileUtils.ValidatePath` | src/main/java/zowe/client/sdk/utility/FileUtils.java:62-70 | null fails with "path value is null" (null parameter); otherwise accepted iff the first character is `/` and no later character is a line terminator, else "specify valid path value" (illegal state); on acceptance the input comes back unchanged |
| `FileUtils.ValidatePathIdempotent` | src/main/java/zowe/client/sdk/utility/FileUtils.java:69 | validating an accepted path again accepts it with the same value |
| `FileUtils.RelativePathRejected` | src/test/java/zowe/client/sdk/zosfiles/UssDeleteTest.java:97-105 | the relative path "name" and a path containing a newline are refused with "specify valid path value"; "/xxx/xx/xx" is accepted |
| `TsoResponses.JoinedAppend` | src/main/java/zowe/client/sdk/zostso/response/StartStopResponses.java:81-84 | the text of two runs of TSO items is the concatenation of their texts |
| `TsoResponses.JoinedInOrder` | src/main/java/zowe/client/sdk/zostso/response/StartStopResponses.java:81-84 | each TSO item's text sits after the texts of the items before it and before those after it |
| `TsoResponses.BuildMessages` | src/main/java/zowe/client/sdk/zostso/response/StartStopResponses.java:81-84 | the StringBuilder loop yields the in-order concatenation of the TSO items |
| `TsoResponses.Classify` | src/main/java/zowe/client/sdk/zostso/response/StartStopResponses.java:67-76 | success iff the message-data list is empty; the failure reason is null exactly on success; otherwise it is the first message's text, or ZOSMF_UNKNOWN_ERROR when that text is absent |
| `TsoResponses.ClassifyReadsOnlyMessageData` | src/main/java/zowe/client/sdk/zostso/response/StartStopResponses.java:67-76 | two replies with the same message data are classified alike, whatever their TSO data or servlet key |
| `TsoResponses.StartStopResponses.constructor` | src/main/java/zowe/client/sdk/zostso/response/StartStopResponses.java:65-86 | the final fields are the classification and message text of the reply; the servlet key and collected responses are the given ones |
| `TsoResponses.StartStopResponses.Create` | src/main/java/zowe/client/sdk/zostso/response/StartStopResponses.java:78-79 | construction fails with "servletKey is missing" (illegal state) iff the reply has no servlet key, whatever its message data; otherwise a new object in the state the constructor describes |
| `TsoResponses.StartStopResponses.GetFailureResponse` | src/main/java/zowe/client/sdk/zostso/response/StartStopResponses.java:111-113 | throws (Optional.of on null) iff the response is a success; otherwise present with the classified failure reason |
| `TsoResponses.StartStopResponses.IsSuccess` | src/main/java/zowe/client/sdk/zostso/response/StartStopResponses.java:156-158 | true iff the reply carried no message data, which is exactly when the failure reason is null |
| `TsoResponses.StartStopResponses.GetMessages` | src/main/java/zowe/client/sdk/zostso/response/StartStopResponses.java:120-122 | always present, holding the in-order concatenation of the reply's TSO items |
| `TsoResponses.StartStopResponses.GetServletKey` | src/main/java/zowe/client/sdk/zostso/response/StartStopResponses.java:129-131 | empty iff the stored key is null, otherwise that key |
| `TsoResponses.StartStopResponses.SetServletKey` | src/main/java/zowe/client/sdk/zostso/response/StartStopResponses.java:138-140 | the key becomes the argument, so the getter yields it (or empty for null); the collected responses do not change |
| `TsoResponses.StartStopResponses.GetCollectedResponses` | src/main/java/zowe/client/sdk/zostso/response/StartStopResponses.java:93-95 | the list last stored by the constructor or by `setCollectedResponses` |
| `TsoResponses.StartStopResponses.SetCollectedResponses` | src/main/java/zowe/client/sdk/zostso/response/StartStopResponses.java:102-104 | the collected responses are replaced wholesale; the servlet key does not change |
| `TsoResponses.NewSendResponse` | src/main/java/zowe/client/sdk/zostso/response/SendResponse.java:51-56 | success is exactly the flag given; a null response list reads as empty and a non-null one unchanged; the command response is present iff the text was non-null, and then equals it |
| `TsoResponses.SendResponse.IsSuccess` | src/main/java/zowe/client/sdk/zostso/response/SendResponse.java:72-74 | the success flag the constructor stored (the flag given, by `NewSendResponse`) |
| `TsoResponses.SendResponse.GetZosmfResponses` | src/main/java/zowe/client/sdk/zostso/response/SendResponse.java:81-83 | the list the constructor stored (empty for a null argument, by `NewSendResponse`) |
| `TsoResponses.SendResponse.GetCommandResponse` | src/main/java/zowe/client/sdk/zostso/response/SendResponse.java:63-65 | the Optional the constructor stored (present iff the command text was non-null, by `NewSendResponse`) |
| `TsoResponses.NullResponsesReadAsEmpty` | src/main/java/zowe/client/sdk/zostso/response/SendResponse.java:54 | a null response list and an empty one give the same SendResponse |
| `TsoResponses.NewSendResponseInjective` | src/main/java/zowe/client/sdk/zostso/response/SendResponse.java:51-56 | with a non-null list, different arguments give different responses: the constructor keeps everything it is given |
| `Connections.ZosConnection.constructor` | src/main/java/zowe/client/sdk/core/ZosConnection.java:59-65 | host, port, user and password are the arguments; no cookie is set |
| `Connections.ZosConnection.GetCookie` | src/main/java/zowe/client/sdk/core/ZosConnection.java:108-110 | the attached cookie, if any; when none is attached equals compares the default value, otherwise this cookie's value |
| `Connections.ZosConnection.SetCookie` | src/main/java/zowe/client/sdk/core/ZosConnection.java:120-122 | the cookie is present with the argument iff it is non-null; null makes it empty again (header authentication); only the cookie field may change |
| `Connections.ZosConnection.Equals` | src/main/java/zowe/client/sdk/core/ZosConnection.java:147-159 | true for the same object; false for null and for any other class; when true the cookie values (default when absent) agree |
| `Connections.ZosEqualsFieldwise` | src/main/java/zowe/client/sdk/core/ZosConnection.java:148-159 | two connections are equal iff host, port, user, password and cookie value agree, an absent cookie compared as the default value; the identity shortcut agrees with this |
| `Connections.ZosEqualsOtherClass` | src/main/java/zowe/client/sdk/core/ZosConnection.java:151-153 | equals is false for null and for an object of another class |
| `Connections.ZosEqualsReflexive` | src/main/java/zowe/client/sdk/core/ZosConnection.java:148-150 | every connection equals itself |
| `Connections.ZosEqualsSymmetric` | src/main/java/zowe/client/sdk/core/ZosConnection.java:155-158 | equals is symmetric |
| `Connections.ZosEqualsTransitive` | src/main/java/zowe/client/sdk/core/ZosConnection.java:155-158 | equals is transitive |
| `Connections.ZosEqualsComparesCookieValueOnly` | src/main/java/zowe/client/sdk/core/ZosConnection.java:157-158 | a connection without cookie equals one whose cookie holds the default value, whatever the cookie's name |
| `Connections.ZosEqualsIgnoresCookieName` | src/main/java/zowe/client/sdk/core/ZosConnection.java:157-158 | two connections whose cookies carry the same value are equal whatever the cookies' names, the other fields being equal |
| `Connections.SshConnection.Equals` | src/main/java/zowe/client/sdk/core/SshConnection.java:116-126 | false for anything but an SshConnection, and true for the same connection |
| `Connections.SshEqualsIsValueEquality` | src/main/java/zowe/client/sdk/core/SshConnection.java:116-126 | an SshConnection equals exactly another SshConnection with the same host, port, user and password; never null or another class |
| `Connections.SshEqualsSymmetric` | src/main/java/zowe/client/sdk/core/SshConnection.java:123-125 | equals is symmetric |
| `Connections.SshHashConsistent` | src/main/java/zowe/client/sdk/core/SshConnection.java:134-136 | equal connections have equal hash codes |
| `Connections.SshConnection.HashCode` | src/main/java/zowe/client/sdk/core/SshConnection.java:134-136 | the hash code is 31^4 + 31^3·h(host) + 31^2·port + 31·h(user) + h(password) reduced to a Java int, h being String.hashCode (0 for null) |
| `Connections.CombineFourExpanded` | src/main/java/zowe/client/sdk/core/SshConnection.java:135 | `Objects.hash` of four values, folded from 1 with h = 31·h + e in int arithmetic, is 31^4 + 31^3·e0 + 31^2·e1 + 31·e2 + e3 modulo 2^32 |
| `Connections.UnitsHash` | src/main/java/zowe/client/sdk/core/SshConnection.java:135 | the `String.hashCode` loop over UTF-16 code units agrees modulo 2^32 with the polynomial u[0]·31^(n-1) + … + u[n-1] |
| `Connections.HashPolynomialSnoc` | src/main/java/zowe/client/sdk/core/SshConnection.java:135 | appending a code unit multiplies the hash polynomial by 31 and adds the unit, the step the loop takes |
| `Connections.StringHash` | src/main/java/zowe/client/sdk/core/SshConnection.java:135 | `String.hashCode` of a host, user or password: the hash polynomial of its UTF-16 code units modulo 2^32, and 0 for the empty string |
| `Connections.StringHashExamples` | src/main/java/zowe/client/sdk/core/SshConnection.java:135 | "ab" hashes to 3105 and U+1F600, a surrogate pair, to 1772899, as Java computes them |
| `Connections.SshSingleFieldChangeUnequal` | src/test/java/zowe/client/sdk/core/SshConnectionTest.java:55-92 | changing any single field gives an unequal connection, so the two occupy distinct map keys |
| `Connections.SshExamples` | src/test/java/zowe/client/sdk/core/SshConnectionTest.java:41-51 | ("test",1,"user","password") equals a second copy of itself and differs from the same with host "test2" and from null |
| `RestRequests.Wrapped` | src/main/java/zowe/client/sdk/rest/PutJsonZosmfRequest.java:62-65 | an issued call yields the transport's reply, or a request failure carrying the transport's message |
| `RestRequests.WithJsonHeaders` | src/main/java/zowe/client/sdk/rest/PutJsonZosmfRequest.java:88-91 | Content-Type maps to application/json and the CSRF key to "true"; every other key keeps its value and no other key is added |
| `RestRequests.WithJsonHeadersIdempotent` | src/main/java/zowe/client/sdk/rest/PutJsonZosmfRequest.java:89-90 | applying the standard JSON headers twice gives the same map as once |
| `RestRequests.JsonHeadersFromEmpty` | src/test/java/zowe/client/sdk/zosfiles/UssChangeOwnerTest.java:79-80 | from an empty map the PUT headers are exactly X-CSRF-ZOSMF-HEADER=true and Content-Type=application/json, with no Authorization entry |
| `RestRequests.WithStreamHeaders` | src/main/java/zowe/client/sdk/rest/GetStreamZosmfRequest.java:75-79 | Authorization is "Basic " followed by the encoded credentials, Content-Type is application/json and the CSRF entry is set; other keys keep their values |
| `RestRequests.StreamHeadersAddAuthorization` | src/main/java/zowe/client/sdk/rest/GetStreamZosmfRequest.java:75-79 | the stream headers are the JSON headers plus the Basic Authorization entry |
| `RestRequests.WithStreamHeadersIdempotent` | src/main/java/zowe/client/sdk/rest/GetStreamZosmfRequest.java:76-78 | applying the stream headers twice gives the same map as once |
| `RestRequests.PutJsonZosmfRequest.constructor` | src/main/java/zowe/client/sdk/rest/PutJsonZosmfRequest.java:43-45 | no url and no body are set; the header map and the token are the ones the base request class sets up, taken as parameters |
| `RestRequests.PutJsonZosmfRequest.SetBody` | src/main/java/zowe/client/sdk/rest/PutJsonZosmfRequest.java:77-80 | the stored body becomes the argument |
| `RestRequests.PutJsonZosmfRequest.SetStandardHeaders` | src/main/java/zowe/client/sdk/rest/PutJsonZosmfRequest.java:88-91 | the header map becomes the standard JSON headers applied to the old map |
| `RestRequests.PutJsonZosmfRequest.ExecuteRequest` | src/main/java/zowe/client/sdk/rest/PutJsonZosmfRequest.java:57-68 | no url fails with "url is null", then no body fails with "body is null", both without a transport call; otherwise exactly one PUT with url, headers and body, carrying a cookie iff a token is set; a transport failure becomes a request failure with the same message |
| `RestRequests.GetStreamZosmfRequest.constructor` | src/main/java/zowe/client/sdk/rest/GetStreamZosmfRequest.java:34-36 | no url is set; the header map and the cookie are the ones the base request class sets up, taken as parameters |
| `RestRequests.GetStreamZosmfRequest.SetBody` | src/main/java/zowe/client/sdk/rest/GetStreamZosmfRequest.java:65-67 | always fails with "setting body for this request is invalid" (illegal state), whatever the argument, and changes nothing |
| `RestRequests.GetStreamZosmfRequest.SetStandardHeaders` | src/main/java/zowe/client/sdk/rest/GetStreamZosmfRequest.java:75-79 | the header map becomes the stream headers applied to the old map |
| `RestRequests.GetStreamZosmfRequest.ExecuteRequest` | src/main/java/zowe/client/sdk/rest/GetStreamZosmfRequest.java:46-56 | the url is the only precondition: none fails with "url is null" without a transport call; otherwise exactly one GET with url and headers, carrying a cookie iff one is set; a transport failure becomes a request failure with the same message |
| `JobFiles.Builder.constructor` | src/main/java/zowe/client/sdk/zosjobs/input/JobFile.java:361-362 | a new builder has every field null, and what it builds has every field empty |
| `JobFiles.Builder.ByteCount` | src/main/java/zowe/client/sdk/zosjobs/input/JobFile.java:370-373 | sets only the builder's byteCount (a later call overwrites it) and returns the same builder |
| `JobFiles.Builder.Classs` | src/main/java/zowe/client/sdk/zosjobs/input/JobFile.java:381-384 | sets only the builder's classs (a later call overwrites it) and returns the same builder |
| `JobFiles.Builder.DdName` | src/main/java/zowe/client/sdk/zosjobs/input/JobFile.java:392-395 | sets only the builder's ddName (a later call overwrites it) and returns the same builder |
| `JobFiles.Builder.Id` | src/main/java/zowe/client/sdk/zosjobs/input/JobFile.java:403-406 | sets only the builder's id (a later call overwrites it) and returns the same builder |
| `JobFiles.Builder.JobCorrelator` | src/main/java/zowe/client/sdk/zosjobs/input/JobFile.java:414-417 | sets only the builder's jobCorrelator (a later call overwrites it) and returns the same builder |
| `JobFiles.Builder.JobId` | src/main/java/zowe/client/sdk/zosjobs/input/JobFile.java:425-428 | sets only the builder's jobId (a later call overwrites it) and returns the same builder |
| `JobFiles.Builder.JobName` | src/main/java/zowe/client/sdk/zosjobs/input/JobFile.java:436-439 | sets only the builder's jobName (a later call overwrites it) and returns the same builder |
| `JobFiles.Builder.Lrecl` | src/main/java/zowe/client/sdk/zosjobs/input/JobFile.java:447-450 | sets only the builder's lrecl (a later call overwrites it) and returns the same builder |
| `JobFiles.Builder.ProcStep` | src/main/java/zowe/client/sdk/zosjobs/input/JobFile.java:458-461 | sets only the builder's procStep (a later call overwrites it) and returns the same builder |
| `JobFiles.Builder.Recfm` | src/main/java/zowe/client/sdk/zosjobs/input/JobFile.java:469-472 | sets only the builder's recfm (a later call overwrites it) and returns the same builder |
| `JobFiles.Builder.RecordCount` | src/main/java/zowe/client/sdk/zosjobs/input/JobFile.java:480-483 | sets only the builder's recordCount (a later call overwrites it) and returns the same builder |
| `JobFiles.Builder.RecordsUrl` | src/main/java/zowe/client/sdk/zosjobs/input/JobFile.java:491-494 | sets only the builder's recordsUrl (a later call overwrites it) and returns the same builder |
| `JobFiles.Builder.StepName` | src/main/java/zowe/client/sdk/zosjobs/input/JobFile.java:502-505 | sets only the builder's stepName (a later call overwrites it) and returns the same builder |
| `JobFiles.Builder.SubSystem` | src/main/java/zowe/client/sdk/zosjobs/input/JobFile.java:513-516 | sets only the builder's subSystem (a later call overwrites it) and returns the same builder |
| `JobFiles.Builder.Build` | src/main/java/zowe/client/sdk/zosjobs/input/JobFile.java:99-130 | each field of the built JobFile is empty iff the builder's is null and otherwise holds its value; the builder is only read |
| `JobFiles.BuildEmptyIffAllNull` | src/main/java/zowe/client/sdk/zosjobs/input/JobFile.java:99-130 | the built JobFile has no field present iff every builder field is null |
| `UnixFiles.UnixFile.GetName` | src/main/java/zowe/client/sdk/zosfiles/uss/response/UnixFile.java:90-92 | empty iff the stored name is null, otherwise present with it |
| `UnixFiles.UnixFile.GetMode` | src/main/java/zowe/client/sdk/zosfiles/uss/response/UnixFile.java:99-101 | empty iff the stored mode is null, otherwise present with it |
| `UnixFiles.UnixFile.GetSize` | src/main/java/zowe/client/sdk/zosfiles/uss/response/UnixFile.java:108-110 | empty iff the stored size is null, otherwise present with it |
| `UnixFiles.UnixFile.GetUid` | src/main/java/zowe/client/sdk/zosfiles/uss/response/UnixFile.java:117-119 | empty iff the stored uid is null, otherwise present with it |
| `UnixFiles.UnixFile.GetUser` | src/main/java/zowe/client/sdk/zosfiles/uss/response/UnixFile.java:126-128 | empty iff the stored user is null, otherwise present with it |
| `UnixFiles.UnixFile.GetGid` | src/main/java/zowe/client/sdk/zosfiles/uss/response/UnixFile.java:135-137 | empty iff the stored gid is null, otherwise present with it |
| `UnixFiles.UnixFile.GetGroup` | src/main/java/zowe/client/sdk/zosfiles/uss/response/UnixFile.java:144-146 | empty iff the stored group is null, otherwise present with it |
| `UnixFiles.UnixFile.GetMtime` | src/main/java/zowe/client/sdk/zosfiles/uss/response/UnixFile.java:153-155 | empty iff the stored mtime is null, otherwise present with it |
| `UnixFiles.UnixFile.GetTarget` | src/main/java/zowe/client/sdk/zosfiles/uss/response/UnixFile.java:162-164 | empty iff the stored target is null, otherwise present with it |
| `UnixFiles.Builder.constructor` | src/main/java/zowe/client/sdk/zosfiles/uss/response/UnixFile.java:189-234 | every field starts null, so a file built at once has every getter empty |
| `UnixFiles.Builder.Name` | src/main/java/zowe/client/sdk/zosfiles/uss/response/UnixFile.java:242-245 | sets only the builder's name and returns the same builder |
| `UnixFiles.Builder.Mode` | src/main/java/zowe/client/sdk/zosfiles/uss/response/UnixFile.java:253-256 | sets only the builder's mode and returns the same builder |
| `UnixFiles.Builder.Size` | src/main/java/zowe/client/sdk/zosfiles/uss/response/UnixFile.java:264-267 | sets only the builder's size and returns the same builder |
| `UnixFiles.Builder.Uid` | src/main/java/zowe/client/sdk/zosfiles/uss/response/UnixFile.java:275-278 | sets only the builder's uid and returns the same builder |
| `UnixFiles.Builder.User` | src/main/java/zowe/client/sdk/zosfiles/uss/response/UnixFile.java:286-289 | sets only the builder's user and returns the same builder |
| `UnixFiles.Builder.Gid` | src/main/java/zowe/client/sdk/zosfiles/uss/response/UnixFile.java:297-300 | sets only the builder's gid and returns the same builder |
| `UnixFiles.Builder.Group` | src/main/java/zowe/client/sdk/zosfiles/uss/response/UnixFile.java:308-311 | sets only the builder's group and returns the same builder |
| `UnixFiles.Builder.Mtime` | src/main/java/zowe/client/sdk/zosfiles/uss/response/UnixFile.java:319-322 | sets only the builder's mtime and returns the same builder |
| `UnixFiles.Builder.Target` | src/main/java/zowe/client/sdk/zosfiles/uss/response/UnixFile.java:330-333 | sets only the builder's target and returns the same builder |
| `UnixFiles.Builder.Build` | src/main/java/zowe/client/sdk/zosfiles/uss/response/UnixFile.java:73-83 | the built UnixFile holds all nine builder fields unchanged |

## Left out

- The `ZosmfRequest` base class is not part of this model: its constructor, `setUrl`, `setHeaders` and `buildResponse`. A request's url and headers are fields, and an issued call returns the transport's reply unchanged.
- RestRequests.PutJsonZosmfRequest.constructor: what `super(connection)` puts in the header map (for instance a Basic Authorization entry for a user and password connection) and which cookie becomes the token are decided by the base class, so the model takes both as parameters and promises nothing about how they derive from the connection.
- RestRequests.GetStreamZosmfRequest.constructor: likewise, the initial header map and the cookie are parameters; how the base class derives them from the connection is not modelled.
- The HTTP library (unirest) and the network are a total function `Transport` passed to `ExecuteRequest`. Timeouts and retries are not modelled.
- `EncodeUtils.encodeAuthComponent` is not part of this model. The encoded credentials are a parameter of `GetStreamZosmfRequest.SetStandardHeaders`, so the Base64 encoding is not modelled.
- `ValidateUtils` is not part of this model. Its checks are the error kinds `NullParameter` and `IllegalParameter`.
- The text of `TsoConstants.ZOSMF_UNKNOWN_ERROR` is not part of this model; `ZOSMF_UNKNOWN_ERROR` is a stand-in constant.
- `TsoMessages.toString` is not part of this model. A TSO item is represented by the text it appends.
- TsoResponses.StartStopResponses.constructor: the source keeps a reference to the caller's collected `List`, so later changes to it show through `getCollectedResponses`; the model takes the list by value and does not capture that aliasing.
- TsoResponses.StartStopResponses.SetCollectedResponses: likewise, the list is stored by value, not as a shared reference.
- TsoResponses.NewSendResponse: likewise, the response list is stored by value, so later changes to the caller's list do not show through `getZosmfResponses`.
- The StartStopResponses constructor dereferences a null reply or null lists; the model's reply and lists are never null.
- RestRequests.PutJsonZosmfRequest.SetBody: `setBody` takes an `Object` and casts it with `(String) body` (`src/main/java/zowe/client/sdk/rest/PutJsonZosmfRequest.java`, line 78); the ClassCastException a non-String argument raises there is not modelled; the model's SetBody takes a nullable string.
- Connections.ZosConnection: `hashCode`, the toString methods, `ZosConnection.Builder` and the connection factory are left out. Map-key distinctness is stated only through `Equals`.
- unirest's `Cookie` parsing is not modelled. `new Cookie("")` is taken to have the empty value `DEFAULT_COOKIE_VALUE`.
- Debug logging, the TSO send and poll loop, the profile and team-configuration code, and `HardCopyType` are outside the modelled core.
- A Java `String` may hold unpaired surrogates, which a Dafny string of Unicode scalar values cannot; `validatePermission`, `validatePath` and `String.hashCode` on such ill-formed UTF-16 are therefore not represented.
- The empty-path and blank-path checks of `UssDelete` belong to that class, not to `FileUtils`, and are not modelled.
