/** What the two pages send to the backend, and what they learn back.
    A transition of a page returns its new state and the requests it
    issued, in order. A mutation's outcome is only whether `fetch`
    threw, and each handler takes it as a parameter: a 400, 404 or 422
    reply counts as `Responded`, while a 500 reaches the browser without
    the CORS header and makes `fetch` throw. */
module Api {
  import opened Schemas

  datatype Request =
    | ListOrgs
    | GetOrg(orgId: string)
    | CreateOrg(body: OrgFields)
    | UpdateOrg(orgId: string, body: OrgFields)
    | UpdateStatus(orgId: string, status: string)
    | DeleteOrg(orgId: string)
    | CreateUser(orgId: string, user: UserFields)
    | UpdateUser(orgId: string, userId: string, user: UserFields)
    | DeleteUser(orgId: string, userId: string)

  datatype Outcome = Responded | Threw

  datatype Step<S> = Step(state: S, sent: seq<Request>)

  /** A request that changes the backend. */
  predicate IsMutation(r: Request)
  {
    !(r.ListOrgs? || r.GetOrg?)
  }
}
