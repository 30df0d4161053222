// Constants and data types shared by client and server (protocol version 2).

module Protocol {
  newtype byte = x: int | 0 <= x < 256

  type Bytes = seq<byte>

  datatype Option<+T> = None | Some(value: T)

  datatype Result<+T> = Ok(value: T) | Err(error: Failure)

  // A ProtocolError: its code, the raw opcode it may carry, and whether the
  // byte stream is still aligned on a frame boundary.
  datatype Failure = Failure(code: ErrorCode, rawOpcode: Option<nat>, synchronized: bool)

  function Bad<T>(code: ErrorCode): Result<T> {
    Err(Failure(code, None, false))
  }

  const MAGIC := 0x48434D55
  const VERSION := 2
  const NO_USER_ID := 0
  const MIN_USER_ID := 1
  const MAX_USER_ID := 65535
  const MAX_USERNAME_BYTES := 32
  const MAX_FILENAME_BYTES := 255
  const DIGEST_BYTES := 32
  const BODY_HEADER_BYTES := 4

  datatype Opcode =
    | LOGIN | DISCONNECT
    | FILE_LIST | FILE_LIST_RESP | FILE_UPLOAD | FILE_DOWNLOAD
    | FILE_CHUNK | FILE_DELETE | FILE_INFO | FILE_CHECKSUM
    | ACK | ERROR

  function OpcodeValue(op: Opcode): nat {
    match op
    case LOGIN => 0x0001
    case DISCONNECT => 0x0002
    case FILE_LIST => 0x0010
    case FILE_LIST_RESP => 0x0011
    case FILE_UPLOAD => 0x0012
    case FILE_DOWNLOAD => 0x0013
    case FILE_CHUNK => 0x0014
    case FILE_DELETE => 0x0015
    case FILE_INFO => 0x0016
    case FILE_CHECKSUM => 0x0017
    case ACK => 0x0020
    case ERROR => 0x00FF
  }

  function OpcodeOf(raw: nat): (op: Option<Opcode>)
    ensures forall o: Opcode :: OpcodeValue(o) == raw <==> op == Some(o)
  {
    if raw == 0x0001 then Some(LOGIN)
    else if raw == 0x0002 then Some(DISCONNECT)
    else if raw == 0x0010 then Some(FILE_LIST)
    else if raw == 0x0011 then Some(FILE_LIST_RESP)
    else if raw == 0x0012 then Some(FILE_UPLOAD)
    else if raw == 0x0013 then Some(FILE_DOWNLOAD)
    else if raw == 0x0014 then Some(FILE_CHUNK)
    else if raw == 0x0015 then Some(FILE_DELETE)
    else if raw == 0x0016 then Some(FILE_INFO)
    else if raw == 0x0017 then Some(FILE_CHECKSUM)
    else if raw == 0x0020 then Some(ACK)
    else if raw == 0x00FF then Some(ERROR)
    else None
  }

  datatype ErrorCode =
    | INVALID_FRAME | UNSUPPORTED_OPCODE | INVALID_PAYLOAD | INVALID_STATE
    | PAYLOAD_TOO_LARGE | INVALID_USER_ID | AUTHENTICATION_REQUIRED
    | INVALID_USERNAME | USERNAME_IN_USE | SERVER_BUSY
    | FILE_NOT_FOUND | FILE_EXISTS | INVALID_FILENAME | ACCESS_DENIED
    | FILE_IO_ERROR | SIZE_MISMATCH | CHECKSUM_MISMATCH | OFFSET_MISMATCH
    | TRANSFER_IN_PROGRESS | LIST_TOO_LARGE | RESUME_METADATA_MISMATCH
    | INTERNAL_ERROR

  function ErrorValue(code: ErrorCode): nat {
    match code
    case INVALID_FRAME => 0x0001
    case UNSUPPORTED_OPCODE => 0x0002
    case INVALID_PAYLOAD => 0x0003
    case INVALID_STATE => 0x0004
    case PAYLOAD_TOO_LARGE => 0x0005
    case INVALID_USER_ID => 0x0006
    case AUTHENTICATION_REQUIRED => 0x0007
    case INVALID_USERNAME => 0x0008
    case USERNAME_IN_USE => 0x0009
    case SERVER_BUSY => 0x000A
    case FILE_NOT_FOUND => 0x0010
    case FILE_EXISTS => 0x0011
    case INVALID_FILENAME => 0x0012
    case ACCESS_DENIED => 0x0013
    case FILE_IO_ERROR => 0x0014
    case SIZE_MISMATCH => 0x0015
    case CHECKSUM_MISMATCH => 0x0016
    case OFFSET_MISMATCH => 0x0017
    case TRANSFER_IN_PROGRESS => 0x0018
    case LIST_TOO_LARGE => 0x0019
    case RESUME_METADATA_MISMATCH => 0x001A
    case INTERNAL_ERROR => 0x00FF
  }

  function ErrorOf(raw: nat): (code: Option<ErrorCode>)
    ensures forall c: ErrorCode :: ErrorValue(c) == raw <==> code == Some(c)
  {
    if raw == 0x0001 then Some(INVALID_FRAME)
    else if raw == 0x0002 then Some(UNSUPPORTED_OPCODE)
    else if raw == 0x0003 then Some(INVALID_PAYLOAD)
    else if raw == 0x0004 then Some(INVALID_STATE)
    else if raw == 0x0005 then Some(PAYLOAD_TOO_LARGE)
    else if raw == 0x0006 then Some(INVALID_USER_ID)
    else if raw == 0x0007 then Some(AUTHENTICATION_REQUIRED)
    else if raw == 0x0008 then Some(INVALID_USERNAME)
    else if raw == 0x0009 then Some(USERNAME_IN_USE)
    else if raw == 0x000A then Some(SERVER_BUSY)
    else if raw == 0x0010 then Some(FILE_NOT_FOUND)
    else if raw == 0x0011 then Some(FILE_EXISTS)
    else if raw == 0x0012 then Some(INVALID_FILENAME)
    else if raw == 0x0013 then Some(ACCESS_DENIED)
    else if raw == 0x0014 then Some(FILE_IO_ERROR)
    else if raw == 0x0015 then Some(SIZE_MISMATCH)
    else if raw == 0x0016 then Some(CHECKSUM_MISMATCH)
    else if raw == 0x0017 then Some(OFFSET_MISMATCH)
    else if raw == 0x0018 then Some(TRANSFER_IN_PROGRESS)
    else if raw == 0x0019 then Some(LIST_TOO_LARGE)
    else if raw == 0x001A then Some(RESUME_METADATA_MISMATCH)
    else if raw == 0x00FF then Some(INTERNAL_ERROR)
    else None
  }

  // An OSError, as far as the handlers distinguish one from another.
  datatype OsError = PermissionError | OtherOsError

  function OsErrorCode(e: OsError): ErrorCode {
    if e.PermissionError? then ACCESS_DENIED else FILE_IO_ERROR
  }

  function Min(a: int, b: int): int {
    if a < b then a else b
  }
}
