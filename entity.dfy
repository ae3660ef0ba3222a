/** The persisted entities (application-api/internal/entity). Declarations only. */
module Entity {
  import opened Wrappers

  /** User.Type: 1 is a student, 2 is a teacher. */
  const Student: int := 1
  const Teacher: int := 2

  /** A float32 price carried as its IEEE-754 bit pattern; nothing computes with it. */
  datatype Float32 = Float32(bits: bv32)

  /** `password` holds whatever SignUp stored there: the hash, never the plaintext. */
  datatype User = User(id: string, username: string, email: string, userType: int, password: string)

  datatype Course = Course(
    id: string,
    name: string,
    teacherId: string,
    author: string,
    description: string,
    price: Float32,
    courseLanguage: string)

  /** One entry of Account.AccountDevices. */
  datatype Device = Device(name: string, os: string, macAddress: string, active: bool)

  /** Account.AccountSettings, which Go holds by reference and may be nil. */
  datatype Settings = Settings(language: string)

  datatype Account = Account(id: string, userId: string, devices: seq<Device>, settings: Option<Settings>)
}
