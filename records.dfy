/** Record shapes of the hosted database that the core reads or writes
    (src/lib/supabase.ts). They carry no behaviour. */
module Records {
  import opened Wrappers

  /** The four severities a diagnosis may have, mildest first. */
  datatype Severity = Mild | Moderate | Severe | Critical

  /** A signed-in principal. `role` is a plain string: the type annotation
      admits 'doctor', 'admin' and 'government', but stored or updated users
      are not checked against it, and the views test it at run time. */
  datatype User = User(
    id: string,
    abhaId: string,
    name: string,
    email: Option<string>,
    role: string,
    hospitalId: Option<string>,
    state: Option<string>,
    city: Option<string>,
    phone: Option<string>,
    specialization: Option<string>,
    licenseNumber: Option<string>,
    department: Option<string>,
    isActive: bool,
    createdAt: string,
    updatedAt: string)

  /** The patient columns the dashboards and the search select. */
  datatype Patient = Patient(
    id: string,
    abhaId: string,
    name: string,
    age: Option<nat>,
    phone: Option<string>,
    city: string,
    state: string)
}
