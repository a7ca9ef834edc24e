/** The Central System's end of one Charge Point connection: the
    `CentralSystem` object `on_connect` creates per websocket
    (VOLTRIX/app/backend/server/central_system.py). Its `@on` handlers work on
    the shared lists and live in module CentralSystem; this object only
    carries the requests the Central System sends down the link. */
module CsmsEndpointModel {
  import opened Common
  import opened Ocpp

  class CsmsEndpoint {
    const id: string
    var outbox: seq<OcppCall>

    constructor (id: string)
      ensures this.id == id && outbox == []
    {
      this.id := id;
      outbox := [];
    }

    /** `self.call(request)`. */
    method Call(request: OcppCall)
      modifies this
      ensures outbox == old(outbox) + [request]
    {
      outbox := outbox + [request];
    }

    /** The Central System's own `plug_in_vehicle`: one StatusNotification
        with status Occupied on connector 1 of `evseId`. */
    method PlugInVehicle(evseId: int, now: Timestamp)
      modifies this
      ensures outbox == old(outbox) + [StatusNotification(now, "Occupied", 1, evseId)]
    {
      Call(StatusNotification(now, "Occupied", 1, evseId));
    }
  }
}
