/** The /alerts HTTP handlers: path and body validation, one service call, and the token-free replies. */
module AlertController {
  import opened Wrappers
  import opened GoTime
  import opened Decimal
  import opened Seqs
  import opened AlertTypes
  import opened AlertRepository
  import opened AlertService

  datatype Body =
    | ErrorBody(error: string)
    | MessageBody(message: string)
    | AlertBody(alert: TelegramAlertResponse)
    | AlertsBody(alerts: seq<TelegramAlertResponse>, total: int)

  datatype Response = Response(status: int, body: Body)

  const StatusOK := 200
  const StatusCreated := 201
  const StatusBadRequest := 400
  const StatusInternalServerError := 500

  const InvalidId := Response(StatusBadRequest, ErrorBody("invalid alert ID"))
  const InvalidBody := Response(StatusBadRequest, ErrorBody("invalid request body"))

  /** The list handlers' loop: a zeroed slice of the list's length, filled by index. */
  method ToResponses(alerts: seq<TelegramAlert>) returns (responses: seq<TelegramAlertResponse>)
    ensures |responses| == |alerts|
    ensures forall i :: 0 <= i < |alerts| ==> responses[i] == ToResponse(alerts[i])
  {
    var a := new TelegramAlertResponse[|alerts|](_ => ZeroResponse);
    for i := 0 to |alerts|
      invariant forall k :: 0 <= k < i ==> a[k] == ToResponse(alerts[k])
    {
      a[i] := ToResponse(alerts[i]);
    }
    responses := a[..];
  }

  class TelegramAlertController {
    const service: TelegramAlertService

    constructor (service: TelegramAlertService)
      ensures this.service == service
    {
      this.service := service;
    }

    /**
     * CreateAlert: an unbindable body is rejected before the service is called. The reply echoes the
     * body, so it carries the body's id and creation time, not the ones the table assigned.
     */
    method CreateAlert(body: Option<TelegramAlert>, now: Time, dbErr: Option<string>, scanErr: Option<string>)
      returns (resp: Response)
      requires service.repository.Valid()
      modifies service.repository
      ensures service.repository.Valid()
      ensures body.None? ==> resp == InvalidBody && service.repository.rows == old(service.repository.rows)
      ensures body.Some? && dbErr.Some? ==> service.repository.rows == old(service.repository.rows)
      ensures body.Some? && dbErr.None? ==>
                service.repository.rows == old(service.repository.rows) + [Inserted(body.value, old(service.repository.nextId), now)]
      ensures service.repository.nextId == if body.Some? && dbErr.None? then old(service.repository.nextId) + 1
                                           else old(service.repository.nextId)
      ensures body.Some? ==> resp == if dbErr.Some? || scanErr.Some?
                                     then Response(StatusInternalServerError, ErrorBody("failed to create alert"))
                                     else Response(StatusCreated, AlertBody(ToResponse(body.value)))
    {
      if body.None? {
        return InvalidBody;
      }
      var alert := body.value;
      var err := service.CreateAlert(alert, now, dbErr, scanErr);
      if err.Some? {
        return Response(StatusInternalServerError, ErrorBody("failed to create alert"));
      }
      return Response(StatusCreated, AlertBody(ToResponse(alert)));
    }

    /** UpdateAlert: the path id is parsed first, then the body; the path id replaces the body's. */
    method UpdateAlert(idParam: string, body: Option<TelegramAlert>, dbErr: Option<string>) returns (resp: Response)
      requires service.repository.Valid()
      modifies service.repository
      ensures service.repository.Valid()
      ensures service.repository.nextId == old(service.repository.nextId)
      ensures ParseInt64(idParam).None? ==> resp == InvalidId && service.repository.rows == old(service.repository.rows)
      ensures ParseInt64(idParam).Some? && body.None? ==> resp == InvalidBody && service.repository.rows == old(service.repository.rows)
      ensures ParseInt64(idParam).Some? && body.Some? ==>
                var alert := body.value.(id := ParseInt64(idParam).value);
                && service.repository.rows == (if dbErr.None? then Updated(old(service.repository.rows), alert) else old(service.repository.rows))
                && resp == if dbErr.Some? then Response(StatusInternalServerError, ErrorBody("failed to update alert"))
                           else Response(StatusOK, AlertBody(ToResponse(alert)))
    {
      var id := ParseInt64(idParam);
      if id.None? {
        return InvalidId;
      }
      if body.None? {
        return InvalidBody;
      }
      var alert := body.value;
      alert := alert.(id := id.value);
      var err := service.UpdateAlert(alert, dbErr);
      if err.Some? {
        return Response(StatusInternalServerError, ErrorBody("failed to update alert"));
      }
      return Response(StatusOK, AlertBody(ToResponse(alert)));
    }

    /** DeleteAlert: a bad path id is rejected before the service is called. */
    method DeleteAlert(idParam: string, dbErr: Option<string>) returns (resp: Response)
      requires service.repository.Valid()
      modifies service.repository
      ensures service.repository.Valid()
      ensures service.repository.nextId == old(service.repository.nextId)
      ensures ParseInt64(idParam).None? ==> resp == InvalidId && service.repository.rows == old(service.repository.rows)
      ensures ParseInt64(idParam).Some? ==>
                && service.repository.rows == (if dbErr.None? then Filter(old(service.repository.rows), NotId(ParseInt64(idParam).value))
                                               else old(service.repository.rows))
                && resp == if dbErr.Some? then Response(StatusInternalServerError, ErrorBody("failed to delete alert"))
                           else Response(StatusOK, MessageBody("alert deleted successfully"))
    {
      var id := ParseInt64(idParam);
      if id.None? {
        return InvalidId;
      }
      var err := service.DeleteAlert(id.value, dbErr);
      if err.Some? {
        return Response(StatusInternalServerError, ErrorBody("failed to delete alert"));
      }
      return Response(StatusOK, MessageBody("alert deleted successfully"));
    }

    /** GetAlert: 400 for a bad path id, 500 for a missing row or a failed query, else the row's response. */
    method GetAlert(idParam: string, dbErr: Option<string>) returns (resp: Response)
      requires service.repository.Valid()
      ensures ParseInt64(idParam).None? ==> resp == InvalidId
      ensures ParseInt64(idParam).Some? ==>
                match GetResult(service.repository.rows, ParseInt64(idParam).value, dbErr)
                case Failure(_) => resp == Response(StatusInternalServerError, ErrorBody("failed to get alert"))
                case Success(row) => resp == Response(StatusOK, AlertBody(ToResponse(row)))
      ensures resp.status == StatusOK ==> resp.body.AlertBody? && resp.body.alert.id == ParseInt64(idParam).value
    {
      var id := ParseInt64(idParam);
      if id.None? {
        return InvalidId;
      }
      var alert := service.GetAlert(id.value, dbErr);
      if alert.Failure? {
        return Response(StatusInternalServerError, ErrorBody("failed to get alert"));
      }
      return Response(StatusOK, AlertBody(ToResponse(alert.value)));
    }

    /** GetAlertsByNamespace: an empty namespace is rejected; otherwise the namespace's alerts and their count. */
    method GetAlertsByNamespace(namespace: string, dbErr: Option<string>) returns (resp: Response)
      ensures namespace == "" ==> resp == Response(StatusBadRequest, ErrorBody("namespace parameter is required"))
      ensures namespace != "" && dbErr.Some? ==> resp == Response(StatusInternalServerError, ErrorBody("failed to get alerts"))
      ensures namespace != "" && dbErr.None? ==>
                var listed := ByNamespaceResult(service.repository.rows, namespace, dbErr).value;
                && resp.status == StatusOK && resp.body.AlertsBody?
                && resp.body.total == |resp.body.alerts| == |listed|
                && forall i :: 0 <= i < |listed| ==> resp.body.alerts[i] == ToResponse(listed[i])
    {
      if namespace == "" {
        return Response(StatusBadRequest, ErrorBody("namespace parameter is required"));
      }
      var r := service.GetAlertsByNamespace(namespace, dbErr);
      if r.Failure? {
        return Response(StatusInternalServerError, ErrorBody("failed to get alerts"));
      }
      var responses := ToResponses(r.value);
      return Response(StatusOK, AlertsBody(responses, |responses|));
    }

    /** GetAllAlerts: every alert, newest first, and their count. */
    method GetAllAlerts(dbErr: Option<string>) returns (resp: Response)
      ensures dbErr.Some? ==> resp == Response(StatusInternalServerError, ErrorBody("failed to get alerts"))
      ensures dbErr.None? ==>
                var listed := AllResult(service.repository.rows, dbErr).value;
                && resp.status == StatusOK && resp.body.AlertsBody?
                && resp.body.total == |resp.body.alerts| == |listed|
                && forall i :: 0 <= i < |listed| ==> resp.body.alerts[i] == ToResponse(listed[i])
    {
      var r := service.GetAllAlerts(dbErr);
      if r.Failure? {
        return Response(StatusInternalServerError, ErrorBody("failed to get alerts"));
      }
      var responses := ToResponses(r.value);
      return Response(StatusOK, AlertsBody(responses, |responses|));
    }
  }
}
