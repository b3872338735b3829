/**
 * The four kinds of record kept in `sharedData` (backend/server.js), with
 * fields named after their JSON keys. Timestamps are milliseconds since the
 * epoch; amounts are decimals.
 */
module Records {
  import opened Common

  /** A resident account. `id` is `Date.now()` at registration. */
  datatype Tenant = Tenant(
    id: int,
    username: string,
    password: string,
    name: string,
    email: string,
    phone: string,
    roomNumber: string,
    leaseStart: string,
    leaseEnd: string,
    rentAmount: string,
    role: string,
    createdAt: int)

  /** A tenant record as responses show it: every field but the password. */
  datatype PublicTenant = PublicTenant(
    id: int,
    username: string,
    name: string,
    email: string,
    phone: string,
    roomNumber: string,
    leaseStart: string,
    leaseEnd: string,
    rentAmount: string,
    role: string,
    createdAt: int)

  /** `const { password, ...rest } = tenant`. */
  function WithoutPassword(t: Tenant): PublicTenant {
    PublicTenant(t.id, t.username, t.name, t.email, t.phone, t.roomNumber,
                 t.leaseStart, t.leaseEnd, t.rentAmount, t.role, t.createdAt)
  }

  /**
   * One rent and utilities settlement. `paymentDate` is the date the tenant
   * typed in, `None` when it was left empty.
   */
  datatype Payment = Payment(
    id: int,
    tenantId: Id,
    tenantName: string,
    paymentDate: Option<int>,
    rentAmount: real,
    waterFee: real,
    electricityRate: real,
    electricityUsage: int,
    electricityFee: real,
    previousMeter: int,
    currentMeter: int,
    totalAmount: real,
    accountLastFive: string,
    status: string,
    createdAt: int,
    updatedAt: int)

  /**
   * Metadata of an uploaded proof-of-payment file; `fileType` is absent on
   * records registered through `/api/images/save`.
   */
  datatype Image = Image(
    id: int,
    tenantId: Id,
    tenantName: string,
    imageUrl: string,
    fileName: string,
    fileSize: int,
    fileType: Option<string>,
    uploadedAt: int)

  /** The landlord's bank account shown to tenants. */
  datatype BankInfo = BankInfo(
    bankName: string,
    branchName: string,
    accountName: string,
    accountNumber: string,
    updatedAt: int)

  /** `record.tenant_id === owner`. */
  function PaymentOwnedBy(owner: Id): Payment -> bool {
    (p: Payment) => p.tenantId == owner
  }

  function ImageOwnedBy(owner: Id): Image -> bool {
    (img: Image) => img.tenantId == owner
  }

  /** `t.id === id` for a tenant record. */
  function TenantHasId(id: Id): Tenant -> bool {
    (t: Tenant) => Num(t.id) == id
  }
}
