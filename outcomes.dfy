/** What a request can end in: the value it returns, or the HTTP exception a
    service throws (NestJS turns each into a response status). */
module Outcomes {

  datatype Option<+T> = None | Some(value: T)

  /** `BadRequestException` (400), `UnauthorizedException` (401),
      `ForbiddenException` (403), `NotFoundException` (404),
      `ConflictException` (409), `PayloadTooLargeException` (413), and a
      database error no service catches, which reaches the client as 500. */
  datatype Status = BadRequest | Unauthorized | Forbidden | NotFound | Conflict | PayloadTooLarge | InternalError

  datatype Result<+T> = Ok(value: T) | Fail(status: Status, message: string)
}
