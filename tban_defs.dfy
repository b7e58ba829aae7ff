// Constants of the T-Balancer library: status codes, serial opcodes,
// status-vector indices and the hardware dimensions of the classic
// T-Balancer, the miniNG and the bigNG.

module TBanDefs {
  import opened Bytes

  datatype Option<T> = None | Some(value: T)

  /** A value read out of a status vector, or the status code that
    * stopped the read. */
  datatype Result<T> = Ok(value: T) | Err(code: int)

  /** What a command function puts on the wire: either it refuses before
    * sending anything, or it sends these frames in order. */
  datatype Cmd = Reject(code: int) | Frames(frames: seq<seq<Byte>>)

  // ---- Status codes returned by every library call ----
  const OK: int := 0x00
  const ERROR: int := 0x01
  const INDEX_OUT_OF_BOUNDS: int := 0x02
  const VALUE_OUT_OF_BOUNDS: int := 0x03
  const NOT_OPENED: int := 0x04
  const NOT_IMPLEMENTED: int := 0x05
  const FW_TOO_OLD: int := 0x06
  const STRUCT_NULL_PTR: int := 0x30
  const VALUE_NULL_PTR: int := 0x31
  const BUF_NULL_PTR: int := 0x32
  const VECTOR_TO_SMALL: int := 0x33
  const CANNOT_MALLOC: int := 0x40
  const CORRUPT_DATA: int := 0x41
  const EOPEN: int := 0x50
  const ECLOSE: int := 0x51
  const ESEND: int := 0x52
  const ERECEIVE: int := 0x53
  const ESIGACTION: int := 0x54
  const ESIGEMPTYSET: int := 0x55
  const CANNOT_CREATE_LOCKFILE: int := 0x60
  const ALREADY_IN_USE: int := 0x61
  const CANNOT_DELETE_LOCK_FILE: int := 0x62
  const LOCK_FILE_CHANGE_NOT_ALLOWED: int := 0x63
  const CONFIG_FILE_ERROR: int := 0xf0

  // ---- Serial opcodes of the base unit ----
  const SER_LED_EIN: int := 0x01
  const SER_LED_AUS: int := 0x02
  const SER_BUZ_EIN: int := 0x03
  const SER_BUZ_AUS: int := 0x04
  const SER_SOURCE1: int := 0x05
  const SER_SOURCE2: int := 0x06
  const SER_SET1: int := 0x11
  const SER_FREQ: int := 0x15
  const SER_MAN: int := 0x16
  const SER_INIT1: int := 0x17
  const SER_OVER: int := 0x21
  const SER_SKF: int := 0x22
  const SER_MAKE_ABGL: int := 0x35
  const SER_REQUEST: int := 0x36
  const SER_ERR_UP: int := 0x4A
  const SER_ERR_GRENZ: int := 0x4B
  const SER_ERR_DOWN: int := 0x4C
  const SER_SET_KANAL1: int := 0x50
  const SER_SET_MAX: int := 0x90
  const SER_SET_HYS: int := 0xA0
  const SER_SET_ZUORD: int := 0xC0
  const SER_SET_ZUORA: int := 0xE0
  const SER_MINI_S1: int := 0xF0
  const SER_MINI_S2: int := 0xF1
  const SER_MINI_S2_2: int := 0xF2
  const SER_MINI_SEND1: int := 0xF3
  const USB_WATCHDOG_ON: int := 0xF5
  const USB_WATCHDOG_OFF: int := 0xF6
  const SENS_PING: int := 0xFA

  // ---- Serial opcodes added by the bigNG ----
  const BIGNG_SER_OUTMODE: int := 0x1C
  const BIGNG_SER_ZT: int := 0x30
  const BIGNG_SER_MODE: int := 0x3A
  const BIGNG_SER_SKF: int := 0x40
  const BIGNG_SER_ADDFK_AS: int := 0x44
  const BIGNG_SER_ADDFK_DS: int := 0x94
  const BIGNG_SER_ZUORNG: int := 0xE4

  // ---- miniNG function codes (second byte of a pass-through frame) ----
  const MINI_SETCURVE1: int := 0x30
  const MINI_SETCURVE2: int := 0x40

  // ---- Indices into the 285-byte status vector of the base unit ----
  const STATUS_LENGTH: int := 285
  const BUFSIZE: int := 300
  const MES_CH_DOWN_EE: int := 9
  const MES_CH_GRENZ_EE: int := 10
  const MES_CH_UP_EE: int := 11
  const MES_OVERIDEBEWEGUNG: int := 12
  const MES_BETRIEB: int := 160
  const MES_LEVELCHANGECNT: int := 177
  const PWM_FREQ: int := 4
  const LED_ENABLE: int := 17
  const BUZ_ENABLE: int := 18
  const TEMP_MAXGRENZ0: int := 33
  const TEMP_MAXWARN0: int := 41
  const TARGETCONTROL_TIMEBASE: int := 126
  const WARN_LEVEL: int := 181
  const INFO_APP: int := 268
  const INFO_DATE: int := 271
  const INFO_TYPE: int := 272
  const INFO_VER: int := 273
  const INFO_PROT: int := 274
  const SER_BUFFERLN: int := 275
  const WD_COUNTER: int := 277
  const WD_ENABLED: int := 278

  /** First byte of every valid status vector. */
  const PRESENT_MARKER: int := 100

  // ---- Hardware dimensions ----
  const NUMBER_ANALOG_SENSORS: int := 6
  const NUMBER_DIGITAL_SENSORS: int := 8
  const NUMBER_CHANNELS: int := 4
  const MINI_NG_NUMBER_ANALOG_SENSORS: int := 2
  const MINI_NG_NUMBER_CHANNELS: int := 2
  const BIGNG_NUMBER_ADDITIONAL_ANALOG_SENSORS: int := 4

  // ---- Device identification ----
  const NO_DEVICE: int := 0
  const DEVICE_TYPE_TBAN: int := 0x10
  const CLASSIC: int := 0x20
  const DEVICE_TYPE_BIGNG: int := 0x30
  const APP_TYPE_TBAN: int := 0x11
  const APP_TYPE_BIGNG: int := 0x21

  /** Minimum firmware level (major*10 + minor) for the USB watchdog. */
  const WATCHDOG_MIN_FW: int := 28
}
